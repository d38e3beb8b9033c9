/** What the three video tools share: the uploaded file, tool parameters as the plugin hands
    them over, and the outcomes of the ffprobe and ffmpeg runs, which are inputs here. */
module VideoTools {
  import opened Values

  datatype VideoFile = VideoFile(filename: string, blob: seq<byte>, extension: string)

  /** A tool parameter: missing from the parameters, present as None, or given as text. */
  datatype Param = Absent | Null | Given(text: string)

  /** float(p) or int(p) of a parameter looked up with a default: the default when it is
      missing, None when the conversion raises (on None, or on text `parse` rejects). */
  function Coerce<T>(p: Param, default: T, parse: string -> Option<T>): (r: Option<T>)
    ensures p.Absent? ==> r == Some(default)
    ensures p.Null? ==> r.None?
    ensures p.Given? ==> r == parse(p.text)
  {
    match p
    case Absent => Some(default)
    case Null => None
    case Given(text) => parse(text)
  }

  /** `ffprobe -show_format` on the upload: its exit code and stderr, and the float of the
      format's duration (0 when missing), or the text of the exception that reading it raised
      (stdout that is not JSON, a duration float() rejects). */
  datatype DurationProbe = DurationProbe(returnCode: int, stderr: string, duration: Result<real, string>)

  /** One `ffmpeg -vframes 1` run: exit code, stderr, and the bytes of the output file
      when it exists afterwards. */
  datatype FrameRun = FrameRun(returnCode: int, stderr: string, output: Option<seq<byte>>)

  const JpegMime := "image/jpeg"

  /** The message of the handler that wraps each video tool's processing. */
  function ProcessingError(e: string): string
  {
    "Error processing video file: " + e
  }

  /** The probed duration, or the error message a failed probe ends the tool with. */
  function ProbedDuration(probe: DurationProbe): (r: Result<real, string>)
    ensures r.Ok? <==> probe.returnCode == 0 && probe.duration.Ok?
    ensures r.Ok? ==> r.value == probe.duration.value
    ensures probe.returnCode != 0 ==> r == Err("Failed to get video duration: " + probe.stderr)
    ensures probe.returnCode == 0 && probe.duration.Err? ==> r == Err(ProcessingError(probe.duration.error))
  {
    if probe.returnCode != 0 then Err("Failed to get video duration: " + probe.stderr)
    else if probe.duration.Err? then Err(ProcessingError(probe.duration.error))
    else Ok(probe.duration.value)
  }
}
