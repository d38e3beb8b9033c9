/** tools/get_video_frame_list.py: validate gap and count, probe the duration, lay out the seek
    times, then extract one JPEG per seek time, reporting each success as a blob and a frame
    record and each failure as a text, and finish with a summary JSON and text. */
module GetVideoFrameList {
  import opened Values
  import opened VideoTools
  import Text
  import Paths

  const MaxCount := 100

  /** The parameter checks, in the tool's order: video, gap, count. */
  function Validate(video: Option<VideoFile>, gapParam: Param, countParam: Param,
                    parseReal: string -> Option<real>, parseInt: string -> Option<int>): (r: Result<(real, int), string>)
    ensures var gap := Coerce(gapParam, 1.0, parseReal);
      var count := Coerce(countParam, 1, parseInt);
      (r.Ok? <==> video.Some? && gap.Some? && gap.value > 0.0 && count.Some? && 1 <= count.value <= MaxCount) &&
      (r.Ok? ==> r.value == (gap.value, count.value)) &&
      (video.None? ==> r == Err("No video file provided")) &&
      (video.Some? && gap.None? ==> r == Err("Invalid gap time parameter. Must be a number")) &&
      (video.Some? && gap.Some? && gap.value <= 0.0 ==> r == Err("Gap time must be positive")) &&
      (video.Some? && gap.Some? && gap.value > 0.0 ==>
         (count.None? ==> r == Err("Invalid count parameter. Must be an integer")) &&
         (count.Some? && count.value <= 0 ==> r == Err("Count must be positive")) &&
         (count.Some? && count.value > MaxCount ==> r == Err("Count cannot exceed 100")))
  {
    if video.None? then Err("No video file provided")
    else
      var gap := Coerce(gapParam, 1.0, parseReal);
      if gap.None? then Err("Invalid gap time parameter. Must be a number")
      else if gap.value <= 0.0 then Err("Gap time must be positive")
      else
        var count := Coerce(countParam, 1, parseInt);
        if count.None? then Err("Invalid count parameter. Must be an integer")
        else if count.value <= 0 then Err("Count must be positive")
        else if count.value > MaxCount then Err("Count cannot exceed 100")
        else Ok((gap.value, count.value))
  }

  /** count * gap_time > duration: count frames at this gap would run past the duration. */
  predicate Overfull(duration: real, gap: real, count: int)
  {
    count as real * gap > duration
  }

  /** The gap the tool goes on with: shrunk to duration / count when count frames at the
      requested gap would not fit (never for a single frame). */
  function AdjustedGap(duration: real, gap: real, count: int): (g: real)
    ensures count > 1 ==> count as real * g <= duration || g == gap
    ensures count > 1 && count as real * gap <= duration ==> g == gap
    ensures count > 1 && count as real * gap > duration ==> count as real * g == duration
    ensures gap > 0.0 && duration > 0.0 ==> 0.0 < g <= gap
  {
    if count > 1 && Overfull(duration, gap, count) then duration / count as real else gap
  }

  /** seek_time = i * gap_time */
  function SeekAt(i: nat, gap: real): real
  {
    i as real * gap
  }

  /** i * gap for i in range(n), keeping those below the duration, in order. */
  function Candidates(duration: real, gap: real, n: nat): (times: seq<real>)
    ensures |times| <= n
    ensures forall i :: 0 <= i < |times| ==> times[i] < duration
  {
    if n == 0 then []
    else Candidates(duration, gap, n - 1) + (if SeekAt(n - 1, gap) < duration then [SeekAt(n - 1, gap)] else [])
  }

  /** The seek times: the midpoint for a single frame, the kept multiples of the adjusted
      gap otherwise. */
  function Schedule(duration: real, gap: real, count: int): (times: seq<real>)
    ensures count == 1 ==> times == [duration / 2.0]
    ensures count != 1 ==> |times| <= (if count < 0 then 0 else count) &&
                           forall i :: 0 <= i < |times| ==> times[i] < duration
  {
    if count == 1 then [duration / 2.0]
    else Candidates(duration, AdjustedGap(duration, gap, count), if count < 0 then 0 else count)
  }

  lemma {:induction false} CandidatesKeepAll(duration: real, gap: real, n: nat)
    requires forall i: nat :: i < n ==> SeekAt(i, gap) < duration
    ensures Candidates(duration, gap, n) == seq(n, i requires 0 <= i => SeekAt(i, gap))
  {
    if n > 0 {
      CandidatesKeepAll(duration, gap, n - 1);
      assert seq(n, i requires 0 <= i => SeekAt(i, gap)) == seq(n - 1, i requires 0 <= i => SeekAt(i, gap)) + [SeekAt(n - 1, gap)];
    }
  }

  /** Below count * gap <= duration, or once the gap is shrunk to duration / count, every
      multiple i * gap with i < count stays below the duration. */
  lemma MultiplesFit(duration: real, gap: real, count: int, i: nat)
    requires duration > 0.0 && gap > 0.0 && count > 1 && i < count
    ensures 0.0 <= SeekAt(i, AdjustedGap(duration, gap, count)) < duration
  {
    var g := AdjustedGap(duration, gap, count);
    var c := count as real;
    if c * gap > duration {
      assert g * c == duration;
      assert i as real * g < c * g;
    } else {
      assert i as real * gap < c * gap;
    }
  }

  lemma SeekAtIncreasing(i: nat, j: nat, gap: real)
    requires i < j && gap > 0.0
    ensures SeekAt(i, gap) < SeekAt(j, gap)
  {
    assert SeekAt(j, gap) - SeekAt(i, gap) == (j - i) as real * gap;
  }

  /** In exact arithmetic the filter never drops a time: count seek times, starting at 0
      (or the midpoint alone), strictly increasing, all within [0, duration). */
  lemma ScheduleExact(duration: real, gap: real, count: int)
    requires duration > 0.0 && gap > 0.0 && count >= 1
    ensures var times := Schedule(duration, gap, count);
      |times| == count &&
      (count == 1 ==> times == [duration / 2.0]) &&
      (count > 1 ==> times[0] == 0.0 &&
                     forall i: nat :: i < count ==> times[i] == SeekAt(i, AdjustedGap(duration, gap, count))) &&
      (forall i :: 0 <= i < |times| ==> 0.0 <= times[i] < duration) &&
      (forall i, j :: 0 <= i < j < |times| ==> times[i] < times[j])
  {
    if count > 1 {
      var g := AdjustedGap(duration, gap, count);
      forall i: nat | i < count
        ensures SeekAt(i, g) < duration
      {
        MultiplesFit(duration, gap, count, i);
      }
      CandidatesKeepAll(duration, g, count);
      var times := Schedule(duration, gap, count);
      assert times == seq(count, i requires 0 <= i => SeekAt(i, g));
      forall i, j | 0 <= i < j < |times|
        ensures times[i] < times[j]
      {
        SeekAtIncreasing(i, j, g);
      }
      forall i | 0 <= i < |times|
        ensures 0.0 <= times[i] < duration
      {
        MultiplesFit(duration, gap, count, i);
      }
    }
  }

  /** The loop of lines 113-126, with gap_time reassigned and seek_times appended to. */
  method SeekTimes(duration: real, gap: real, count: int) returns (times: seq<real>, gapTime: real)
    requires count >= 1
    ensures times == Schedule(duration, gap, count)
    ensures gapTime == AdjustedGap(duration, gap, count)
  {
    gapTime := gap;
    if count == 1 {
      times := [duration / 2.0];
    } else {
      if Overfull(duration, gapTime, count) {
        gapTime := duration / count as real;
        assert gapTime == AdjustedGap(duration, gap, count);
      } else {
        assert gapTime == AdjustedGap(duration, gap, count);
      }
      times := [];
      var i: nat := 0;
      while i < count
        invariant count >= 0 ==> i <= count
        invariant times == Candidates(duration, gapTime, i)
      {
        var seekTime := SeekAt(i, gapTime);
        if seekTime < duration {
          times := times + [seekTime];
        }
        assert times == Candidates(duration, gapTime, i + 1);
        i := i + 1;
      }
    }
  }

  /** f"{stem}_frame_{n:03d}.jpg" */
  function FrameName(stem: string, number: nat): string
  {
    stem + "_frame_" + Text.Pad3(number) + ".jpg"
  }

  /** The name is the stem, "_frame_", the zero-padded number and ".jpg", in that order. */
  lemma FrameNameLayout(stem: string, number: nat)
    ensures var name := FrameName(stem, number);
      |name| == |stem| + 11 + |Text.Pad3(number)| &&
      name[..|stem|] == stem && name[|stem|..|stem| + 7] == "_frame_" &&
      name[|stem| + 7..|name| - 4] == Text.Pad3(number) && name[|name| - 4..] == ".jpg"
  {
  }

  /** Frame names up to 999 have a fixed width, and distinct numbers give distinct names. */
  lemma FrameNamesDistinct(stem: string, m: nat, n: nat)
    requires m < 1000 && n < 1000
    ensures |FrameName(stem, m)| == |stem| + 14
    ensures FrameName(stem, m) == FrameName(stem, n) ==> m == n
  {
    if FrameName(stem, m) == FrameName(stem, n) {
      var k := |stem| + 7;
      assert FrameName(stem, m)[k..k + 3] == Text.Pad3(m);
      assert FrameName(stem, n)[k..k + 3] == Text.Pad3(n);
      Text.Pad3Injective(m, n);
    }
  }

  /** One entry of the result's "frames" list. */
  datatype FrameRecord = FrameRecord(number: nat, filename: string, seekTime: real, size: nat)

  /** Line 151: the run counts only when ffmpeg exited 0 and the output file exists. */
  predicate Extracted(run: FrameRun)
  {
    run.returnCode == 0 && run.output.Some?
  }

  /** The ffmpeg run that writes frame `number` at seek time t. */
  function RunFor(stem: string, number: nat, t: real, ffmpeg: (real, string) -> FrameRun): FrameRun
  {
    ffmpeg(t, FrameName(stem, number))
  }

  /** What the loop yields for frame `number`: the JPEG as a blob, or a text naming the seek time. */
  function FrameMessage(stem: string, number: nat, t: real, ffmpeg: (real, string) -> FrameRun): Message
  {
    var run := RunFor(stem, number, t, ffmpeg);
    if Extracted(run) then Blob(run.output.value, FrameName(stem, number), JpegMime)
    else Text("Failed to extract frame at " + Text.Fixed2(t) + "s: " + run.stderr)
  }

  /** One message per seek time, in order. */
  function FrameMessages(stem: string, times: seq<real>, ffmpeg: (real, string) -> FrameRun): (ms: seq<Message>)
    ensures |ms| == |times|
    ensures forall i :: 0 <= i < |times| ==> ms[i] == FrameMessage(stem, i + 1, times[i], ffmpeg)
    decreases |times|
  {
    if times == [] then []
    else
      var n := |times| - 1;
      FrameMessages(stem, times[..n], ffmpeg) + [FrameMessage(stem, n + 1, times[n], ffmpeg)]
  }

  /** r records a successful run of the schedule: its number is a position in it (from 1),
      with that position's seek time, the frame's name and the output's byte count. */
  predicate RecordOf(stem: string, times: seq<real>, ffmpeg: (real, string) -> FrameRun, r: FrameRecord)
  {
    1 <= r.number <= |times| && r.seekTime == times[r.number - 1] &&
    Extracted(RunFor(stem, r.number, r.seekTime, ffmpeg)) &&
    r.filename == FrameName(stem, r.number) &&
    r.size == |RunFor(stem, r.number, r.seekTime, ffmpeg).output.value|
  }

  /** extracted_frames: the successful runs in order, each numbered from 1 by its position
      in the schedule, named after that number, with its seek time and byte count. */
  function Records(stem: string, times: seq<real>, ffmpeg: (real, string) -> FrameRun): (rs: seq<FrameRecord>)
    ensures |rs| <= |times|
    ensures forall j :: 0 <= j < |rs| ==> RecordOf(stem, times, ffmpeg, rs[j])
    ensures forall j, k :: 0 <= j < k < |rs| ==> rs[j].number < rs[k].number
    decreases |times|
  {
    if times == [] then []
    else
      var n := |times| - 1;
      var earlier := Records(stem, times[..n], ffmpeg);
      var run := RunFor(stem, n + 1, times[n], ffmpeg);
      if Extracted(run) then earlier + [FrameRecord(n + 1, FrameName(stem, n + 1), times[n], |run.output.value|)]
      else earlier
  }

  /** Every successful run has its record: frame i + 1 is at position j. */
  lemma {:induction false} RecordsComplete(stem: string, times: seq<real>, ffmpeg: (real, string) -> FrameRun, i: nat)
    returns (j: nat)
    requires i < |times| && Extracted(RunFor(stem, i + 1, times[i], ffmpeg))
    ensures j < |Records(stem, times, ffmpeg)| && Records(stem, times, ffmpeg)[j].number == i + 1
    decreases |times|
  {
    var n := |times| - 1;
    RecordsStep(stem, times, ffmpeg);
    if i < n {
      assert times[..n][i] == times[i];
      j := RecordsComplete(stem, times[..n], ffmpeg, i);
    } else {
      j := |Records(stem, times, ffmpeg)| - 1;
    }
  }

  /** One more seek time keeps the earlier records and adds at most the new frame's. */
  lemma RecordsStep(stem: string, times: seq<real>, ffmpeg: (real, string) -> FrameRun)
    requires times != []
    ensures var n := |times| - 1;
      var rs := Records(stem, times, ffmpeg);
      var earlier := Records(stem, times[..n], ffmpeg);
      |earlier| <= |rs| && (forall k :: 0 <= k < |earlier| ==> rs[k] == earlier[k]) &&
      (Extracted(RunFor(stem, n + 1, times[n], ffmpeg)) <==> |rs| == |earlier| + 1) &&
      (|rs| == |earlier| + 1 ==> rs[|rs| - 1].number == n + 1)
  {
  }

  /** The extraction loop of lines 134-175. */
  method ExtractFrames(stem: string, times: seq<real>, ffmpeg: (real, string) -> FrameRun)
    returns (messages: seq<Message>, frames: seq<FrameRecord>)
    ensures messages == FrameMessages(stem, times, ffmpeg)
    ensures frames == Records(stem, times, ffmpeg)
  {
    messages := [];
    frames := [];
    for i := 0 to |times|
      invariant messages == FrameMessages(stem, times[..i], ffmpeg)
      invariant frames == Records(stem, times[..i], ffmpeg)
    {
      var outputFilename := FrameName(stem, i + 1);
      var run := ffmpeg(times[i], outputFilename);
      assert times[..i + 1][..i] == times[..i];
      if run.returnCode == 0 && run.output.Some? {
        messages := messages + [Blob(run.output.value, outputFilename, JpegMime)];
        frames := frames + [FrameRecord(i + 1, outputFilename, times[i], |run.output.value|)];
      } else {
        messages := messages + [Text("Failed to extract frame at " + Text.Fixed2(times[i]) + "s: " + run.stderr)];
      }
    }
    assert times[..|times|] == times;
  }

  function RecordJson(r: FrameRecord): JValue
  {
    JObject(map["frame_number" := JInt(r.number), "filename" := JStr(r.filename),
                "seek_time" := JReal(r.seekTime), "frame_size" := JInt(r.size)])
  }

  /** The closing JSON: the adjusted gap, the validated count and the kept frames. */
  function ResultJson(filename: string, duration: real, gapTime: real, count: int, frames: seq<FrameRecord>): JsonObject
  {
    var n := Text.NatToString(|frames|);
    map["status" := JStr("success"),
        "message" := JStr("Successfully extracted " + n + " frames from video"),
        "original_filename" := JStr(filename),
        "video_duration" := JReal(duration),
        "gap_time" := JReal(gapTime),
        "requested_count" := JInt(count),
        "extracted_count" := JInt(|frames|),
        "frames" := JList(seq(|frames|, j requires 0 <= j < |frames| => RecordJson(frames[j])))]
  }

  /** Everything after validation and the probe: the announcement, one message per seek
      time, the result JSON and the closing text. */
  function Report(file: VideoFile, duration: real, gap: real, count: int, ffmpeg: (real, string) -> FrameRun): seq<Message>
  {
    var stem := Paths.SplitExt(file.filename).0;
    var times := Schedule(duration, gap, count);
    var frames := Records(stem, times, ffmpeg);
    [Text("Extracting " + Text.NatToString(|times|) + " frames from video...")]
    + FrameMessages(stem, times, ffmpeg)
    + [Json(ResultJson(file.filename, duration, AdjustedGap(duration, gap, count), count, frames)),
       Text("Successfully extracted " + Text.NatToString(|frames|) + " frames from " + file.filename + ".")]
  }

  /** _invoke: each failed check or probe ends the tool with its text and JSON error;
      otherwise it reports the extraction over the schedule. */
  method Invoke(video: Option<VideoFile>, gapParam: Param, countParam: Param,
                parseReal: string -> Option<real>, parseInt: string -> Option<int>,
                probe: DurationProbe, ffmpeg: (real, string) -> FrameRun)
    returns (messages: seq<Message>)
    ensures var v := Validate(video, gapParam, countParam, parseReal, parseInt);
      (v.Err? ==> messages == ErrorMessages(v.error)) &&
      (v.Ok? ==>
         var d := ProbedDuration(probe);
         (d.Err? ==> messages == ErrorMessages(d.error)) &&
         (d.Ok? && d.value <= 0.0 ==> messages == ErrorMessages("Invalid video duration")) &&
         (d.Ok? && d.value > 0.0 ==> messages == Report(video.value, d.value, v.value.0, v.value.1, ffmpeg)))
  {
    var v := Validate(video, gapParam, countParam, parseReal, parseInt);
    if v.Err? {
      return ErrorMessages(v.error);
    }
    var (gap, count) := v.value;
    var file := video.value;
    var stem := Paths.SplitExt(file.filename).0;
    if probe.returnCode != 0 {
      return ErrorMessages("Failed to get video duration: " + probe.stderr);
    }
    if probe.duration.Err? {
      return ErrorMessages(ProcessingError(probe.duration.error));
    }
    var duration := probe.duration.value;
    if duration <= 0.0 {
      return ErrorMessages("Invalid video duration");
    }
    var times, gapTime := SeekTimes(duration, gap, count);
    messages := [Text("Extracting " + Text.NatToString(|times|) + " frames from video...")];
    var frameMessages, frames := ExtractFrames(stem, times, ffmpeg);
    messages := messages + frameMessages;
    messages := messages + [Json(ResultJson(file.filename, duration, gapTime, count, frames))];
    messages := messages + [Text("Successfully extracted " + Text.NatToString(|frames|) + " frames from " + file.filename + ".")];
  }

  /** A successful run's result JSON reports the adjusted gap, the validated count, and
      count records at most, one per extracted frame. */
  lemma ReportCounts(file: VideoFile, duration: real, gap: real, count: int, ffmpeg: (real, string) -> FrameRun)
    requires duration > 0.0 && gap > 0.0 && 1 <= count <= MaxCount
    ensures var ms := Report(file, duration, gap, count, ffmpeg);
      var stem := Paths.SplitExt(file.filename).0;
      var frames := Records(stem, Schedule(duration, gap, count), ffmpeg);
      |ms| == count + 3 && |frames| <= count &&
      ms[count + 1] == Json(ResultJson(file.filename, duration, AdjustedGap(duration, gap, count), count, frames))
  {
    ScheduleExact(duration, gap, count);
  }
}
