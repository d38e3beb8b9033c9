# iLoveImg and video tools for Dify: a verified model

The repository is a Dify plugin with six tools. This project models the decision logic
around each external call. The external results become inputs: the iLoveImg REST service,
the ffprobe and ffmpeg binaries, and Python's base64 decoder.

- **iLoveImg client** (`utils/love_helpers.py`). `ILoveImgClient` caches an access token
  in a field and authenticates lazily before each step. It uploads an image, creates a
  `removebg` task, polls the task a bounded number of times, and downloads the result.
  `remove_background_from_image` drives a fresh client through the five steps.
  - The model is the class `LoveHelpers.ILoveImgClient`.
  - Each of its methods is proved equal to a step function over a `Session` (cached token
    plus wire).
  - The service is a *script*: the client's n-th request gets the n-th reply, and every
    request after the script runs out fails to connect.
  - The *wire* records every request sent, in order, and counts the two-second pauses
    between polls. This lets the lemmas state exactly what a run sends.
- **The remove-background tool** (`tools/love_remove_background.py`). It is the same
  protocol inlined, with the token passed explicitly. `LoveRemoveBackground.Invoke` is
  proved to report exactly the outcome of the helper pipeline, on the same wire, for every
  script.
- **Frame list** (`tools/get_video_frame_list.py`).
  - Validates the gap and count parameters.
  - Lays out the seek times, shrinking the gap when the frames would not fit.
  - Extracts one JPEG per time, named `<stem>_frame_NNN.jpg`.
  - Keeps a record of each frame that succeeded.
- **Single frame** (`tools/get_video_frame.py`). Validates the frame type and time, picks
  the seek time, and names the output after the upload.
- **Video info** (`tools/get_video_info.py`). Reshapes ffprobe's metadata into a response
  dict. It writes a summary that also widens the response's resolution in place; the model
  is the class `GetVideoInfo.VideoInfoResponse`.
- **Base64 to image** (`tools/base64_to_image.py`). Recognises
  `data:image/<format>;base64,<payload>` (a subset of the data URLs of section 3 of
  RFC 2397) or bare base64 text. It maps the format to a MIME type and extension, and
  yields the decoded bytes as `converted_image.<extension>`.

Every tool's output is the ordered sequence of messages it yields (`Values.Message`). An
error is always the pair `ErrorMessages(m)`: the text `m`, then the JSON
`{"status": "error", "message": m}`.

Where a reading of the code differs from what the code does, the model follows the code:

- **`get_video_info.py:132`** names `debug_info`, which is defined nowhere. A JSON parse
  failure therefore raises `NameError`, and the tool reports
  `Error processing video file: name 'debug_info' is not defined`.
- **The codec default.** Stream records always carry the `codec_name` key (`None` when
  ffprobe had none), so the `'Unknown'` default of lines 76 and 79 never applies. The
  summary shows `None` instead.
- **The resolution test.** Video stream records always carry `width` and `height`, so the
  test at line 65 always holds for the first video stream. When either value is `None`,
  `max()` raises a `TypeError`, which the outer handler reports. When only the height is
  missing, the width has already been widened in place.
- **`max(0, duration - 1)`** (`get_video_frame.py:103`) returns the int `0` unless
  `duration - 1 > 0`. The JSON `seek_time` is therefore `JInt(0)` in those cases and a float
  otherwise.

## Model

| member | source | states |
|---|---|---|
| Text.Pad3 | tools/get_video_frame_list.py:135 | `{n:03d}` is all digits, and for a number below 1000 exactly three of them, reading back as that number |
| Text.NatToStringRoundTrip | tools/get_video_frame_list.py:129 | `str()` of a count reads back as that count, so the counts in the texts are exact |
| Text.RoundHalfEven | tools/get_video_frame_list.py:174 | the `.2f` rounding lands within half a unit of the exact value |
| Text.Lower | tools/base64_to_image.py:45 | `lower()` keeps the length and maps each character through the ASCII case map |
| Paths.SplitExt | tools/get_video_frame.py:68 | `os.path.splitext`: root + ext rebuilds the path, and ext is empty or a dot followed by no dot and no separator |
| Paths.SplitExtKeepsStem | tools/get_video_frame_list.py:74 | an extension is split off only when the last component has a name that is not made of dots alone (`.bashrc` keeps its dot) |
| Paths.SplitExtComplete | tools/get_video_frame_list.py:74 | conversely, a root whose last component has such a name, followed by an extension, splits into exactly that root and extension |
| Paths.SplitExtExample | tools/get_video_frame.py:68 | `splitext("clip.mp4")` is `("clip", ".mp4")` |
| IloveImgApi.Authenticate | tools/love_remove_background.py:100-120 | exactly one auth request carrying the public key is sent; a 200 reply gives its access_token field (None when missing), anything else None |
| IloveImgApi.Upload | tools/love_remove_background.py:122-148 | exactly one upload request with the bearer token and the file is sent; a body comes back iff the reply is a 200, and it is that reply's fields |
| IloveImgApi.CreateTask | tools/love_remove_background.py:150-178 | the only request sent is `{server_filename: <upload body's server_filename>, tool: "removebg"}`; a body comes back iff the reply is a 200, and it is that reply's fields; no pause |
| IloveImgApi.Poll | tools/love_remove_background.py:180-220 | a missing or empty task id returns None and sends nothing; otherwise the bounded poll loop runs |
| IloveImgApi.PollLoop | utils/love_helpers.py:121-146 | the poll loop only ever appends to the wire, and any body it returns has status "Success" |
| IloveImgApi.Download | tools/love_remove_background.py:222-247 | no download URL means None and no request; otherwise one GET on that URL, giving bytes iff the reply is a 200, and they are its content |
| IloveImgApi.PollLoopBounded | utils/love_helpers.py:121-146 | a poll sends only status requests for its task, at most max_attempts of them, with a pause between requests; a poll that returns a body paused exactly k - 1 times for k requests |
| IloveImgApi.PollLoopSucceedsAt | utils/love_helpers.py:129-140 | after k non-terminal 200 replies, a "Success" returns that body after k + 1 requests and k pauses |
| IloveImgApi.PollLoopSucceeded | utils/love_helpers.py:121-146 | conversely, a poll that returns a body got it on some attempt k <= max_attempts, after k - 1 pending replies, from a "Success" reply, with k requests and k - 1 pauses |
| IloveImgApi.PollLoopFailsAt | utils/love_helpers.py:129-143 | after k non-terminal replies, an "Error" status or a non-200 reply returns None at once, after k + 1 requests and k pauses |
| IloveImgApi.PollLoopTimesOut | utils/love_helpers.py:121-146 | max_attempts non-terminal replies return None after exactly max_attempts requests and max_attempts pauses |
| IloveImgApi.PollLoopResultIsSuccess | utils/love_helpers.py:129-134 | a body comes back only from a "Success" reply, and that reply answered the last request sent |
| LoveHelpers.FetchToken | utils/love_helpers.py:19-38 | one auth request; a 200 reply caches and returns its access_token, which may be missing; anything else returns None and leaves the cache alone |
| LoveHelpers.EnsureToken | utils/love_helpers.py:42-44 | with a usable token cached nothing is sent; otherwise one auth request goes out; the step may continue iff a usable token is then cached |
| LoveHelpers.UploadStep | utils/love_helpers.py:40-70 | with a token cached, or after a lazy auth that caches a usable one, the result and wire are those of the explicit-token upload sent with that token; a failed lazy auth returns None without the upload request |
| LoveHelpers.TaskStep | utils/love_helpers.py:72-104 | with a token cached, or after a successful lazy auth, the result and wire are those of the explicit-token task creation with that token and the upload's server_filename; a failed auth sends no task request |
| LoveHelpers.PollStep | utils/love_helpers.py:106-150 | with a token cached, or after a successful lazy auth, the result and the status requests sent are those of the explicit-token poll with that token; a failed auth or a missing task id returns None with no status request; the cached token is kept |
| LoveHelpers.DownloadStep | utils/love_helpers.py:152-181 | with a token cached, or after a successful lazy auth, the bytes and wire are those of the explicit-token download; a failed auth or a missing URL returns None with no download request |
| LoveHelpers.RemoveBackground | utils/love_helpers.py:184-243 | a failure carries one of the five step messages; success carries non-empty bytes, the original name and `removed_background_<filename>` |
| LoveHelpers.RemoveBackgroundTrace | utils/love_helpers.py:184-243 | every run begins with the one auth request and never authenticates again; every later request bears the issued token; at most 34 requests and 30 pauses |
| LoveHelpers.RemoveBackgroundStopsEarly | utils/love_helpers.py:197-234 | each falsy step ends the run with its message and nothing after its requests is sent: auth, upload, task, a failed poll (no download request on the wire), a None or empty download; non-empty bytes complete the run |
| LoveHelpers.NoDownloadInPoll | utils/love_helpers.py:121-146 | a poll sends status requests only, never a download request |
| LoveHelpers.RemoveBackgroundCompleted | utils/love_helpers.py:228-243 | a completed run: the task names the upload reply's server_filename, the polls name the task reply's id, k - 1 pending polls (1 <= k <= 30, k - 1 pauses) precede a "Success" reply whose download URL is fetched, and the bytes are the reply to that fetch |
| LoveHelpers.HappyPathExample | utils/love_helpers.py:184-243 | a service that answers every call at once (HappyScript) gives the five requests in order with no pause, and the downloaded bytes under the prefixed name |
| LoveHelpers.ILoveImgClient.constructor | utils/love_helpers.py:15-17 | a fresh client holds its public key, no token, and has sent nothing |
| LoveHelpers.ILoveImgClient.Exchange | utils/love_helpers.py:55-61 | one HTTP call: the request is appended to the wire and the scripted reply to it comes back |
| LoveHelpers.ILoveImgClient.Pause | utils/love_helpers.py:140 | `time.sleep(2)` adds one pause and sends nothing |
| LoveHelpers.ILoveImgClient.GetAccessToken | utils/love_helpers.py:19-38 | the result and the new token field and wire are those of FetchToken from the old state |
| LoveHelpers.ILoveImgClient.UploadImage | utils/love_helpers.py:40-70 | the result and new state are those of UploadStep from the old state |
| LoveHelpers.ILoveImgClient.CreateRemoveBackgroundTask | utils/love_helpers.py:72-104 | the result and new state are those of TaskStep from the old state |
| LoveHelpers.ILoveImgClient.PollTaskStatus | utils/love_helpers.py:106-150 | the counted loop with early returns gives the result and new state of PollStep from the old state |
| LoveHelpers.ILoveImgClient.DownloadResult | utils/love_helpers.py:152-181 | the result and new state are those of DownloadStep from the old state |
| LoveHelpers.RemoveBackgroundFromImage | utils/love_helpers.py:184-243 | driving a fresh client step by step gives the outcome and the wire that the pipeline lemmas describe |
| LoveRemoveBackground.GetAccessToken | tools/love_remove_background.py:100-120 | with no public key configured nothing is sent and None comes back; otherwise it authenticates with the key |
| LoveRemoveBackground.PollTaskStatus | tools/love_remove_background.py:180-220 | the tool's own bounded loop gives exactly the poll of the shared protocol: result and wire |
| LoveRemoveBackground.Report | tools/love_remove_background.py:79-90 | a failure is the text then the JSON error with its message; success is the text, then the file `removed_background_<filename>` typed image/png, then the success JSON naming it |
| LoveRemoveBackground.Invoke | tools/love_remove_background.py:16-90 | no image or no key gives its error with nothing sent; otherwise the messages report, and the wire equals, what remove_background_from_image computes for the same script |
| VideoTools.ProbedDuration | tools/get_video_frame_list.py:91-101 | a duration comes back iff ffprobe exited 0 and its duration could be read, and it is that duration; a nonzero exit gives "Failed to get video duration: " + stderr, and an unreadable duration the processing error of its exception |
| VideoTools.Coerce | tools/get_video_frame_list.py:14-28 | a missing parameter reads as its default, None makes the conversion raise, and given text is converted by the parser |
| GetVideoFrameList.Validate | tools/get_video_frame_list.py:13-67 | checks video, then gap, then count, each with its own message; it passes iff there is a video, gap > 0 and 1 <= count <= 100, and returns them |
| GetVideoFrameList.AdjustedGap | tools/get_video_frame_list.py:118-120 | with several frames the gap is kept when count frames fit and otherwise shrunk so they span exactly the duration; a positive gap stays positive and never grows |
| GetVideoFrameList.Schedule | tools/get_video_frame_list.py:113-126 | one frame seeks to the midpoint; otherwise at most count times, all below the duration |
| GetVideoFrameList.Candidates | tools/get_video_frame_list.py:123-126 | of the first n multiples of the gap, only times below the duration are kept, so there are at most n of them |
| GetVideoFrameList.ScheduleExact | tools/get_video_frame_list.py:113-126 | in exact arithmetic: count seek times; `[duration/2]` for one frame; otherwise `i * gap'` for i < count with the adjusted gap, starting at 0, strictly increasing, all in [0, duration) |
| GetVideoFrameList.SeekTimes | tools/get_video_frame_list.py:113-126 | the loop builds the schedule and reassigns the gap to the adjusted gap |
| GetVideoFrameList.FrameNamesDistinct | tools/get_video_frame_list.py:135 | frame names up to 999 all have the length of the stem plus 14, and distinct numbers give distinct names |
| GetVideoFrameList.FrameNameLayout | tools/get_video_frame_list.py:135 | the name is the stem, "_frame_", the zero-padded number and ".jpg", in that order |
| GetVideoFrameList.FrameMessages | tools/get_video_frame_list.py:134-175 | exactly one message per seek time, in order: message i is frame i + 1's blob or its failure text |
| GetVideoFrameList.Records | tools/get_video_frame_list.py:149-175 | at most one record per seek time, with strictly increasing numbers; each is a successful run, numbered from 1 by position, with its name, seek time and byte count |
| GetVideoFrameList.RecordsComplete | tools/get_video_frame_list.py:151-169 | every successful extraction appears in the records under its frame number |
| GetVideoFrameList.ExtractFrames | tools/get_video_frame_list.py:134-175 | the extraction loop yields the frame messages and the record list above |
| GetVideoFrameList.Invoke | tools/get_video_frame_list.py:12-189 | a validation or probe failure, or a duration <= 0, ends the tool with that error; otherwise the announcement, one message per seek time, the result JSON and the closing text |
| GetVideoFrameList.ReportCounts | tools/get_video_frame_list.py:178-189 | a successful run yields count + 3 messages; its result JSON carries the adjusted gap, the validated count and at most count frame records |
| GetVideoFrame.FrameType | tools/get_video_frame.py:14-42 | the type defaults to "start"; None or "" gives "No frame type specified"; any other name gives "Unsupported frame type: <t>. Supported types are: start, end, time"; it passes iff it is one of the three |
| GetVideoFrame.Validate | tools/get_video_frame.py:18-61 | checks video, then type, then the time only for "time"; passes iff there is a video, a valid type and, for "time", a parsed time >= 0, which the request carries; otherwise "Invalid time parameter. Must be a number" or "Time parameter must be non-negative" |
| GetVideoFrame.SeekFor | tools/get_video_frame.py:79-105 | "start" seeks to the int 0 and "time" to the given time, as a float; "end" fails exactly when the probe does, else seeks to max(0, d - 1), the int 0 exactly when d - 1 <= 0 |
| GetVideoFrame.OutputName | tools/get_video_frame.py:68-69 | the output name ends in `_frame.jpg` after a prefix of the upload's name |
| GetVideoFrame.OutputNameOf | tools/get_video_frame.py:68-69 | an upload named root + extension gives exactly `<root>_frame.jpg` |
| GetVideoFrame.SeekByType | tools/get_video_frame.py:79-105 | with a video, "start" passes and seeks to 0, "time" with a parsed t >= 0 passes and seeks to t, "end" passes and seeks to max(0, d - 1) or fails with the probe |
| GetVideoFrame.Invoke | tools/get_video_frame.py:12-164 | a validation or probe error ends the tool with that error; otherwise the tool announces the extraction and yields at least three messages |
| GetVideoFrame.InvokeExtraction | tools/get_video_frame.py:108-164 | ffmpeg failing or the output missing gives its own error after the announcement; success iff blob, then the JSON echoing frame_type, seek_time and frame_size = byte count |
| GetVideoFrame.Extraction | tools/get_video_frame.py:108-164 | the announcement first; a failed ffmpeg run or a missing output file then gives its own error; otherwise the blob under the _frame.jpg name, the JSON with frame_type, seek_time and frame_size = byte count, and the closing text with the seek time to two decimals |
| GetVideoFrame.TimeIgnoredUnlessTimeType | tools/get_video_frame.py:45-61 | the time parameter cannot change the outcome unless the type is "time" |
| GetVideoFrame.ProbeOnlyForEnd | tools/get_video_frame.py:79-105 | the duration probe cannot change the outcome unless the type is "end" |
| GetVideoInfo.ExtractStreamInfo | tools/get_video_info.py:19-43 | the three common fields are copied; video and audio streams get their extra fields, with "unknown" as the aspect-ratio and layout defaults; other types get none |
| GetVideoInfo.StreamJsonKeys | tools/get_video_info.py:19-43 | a record's keys are exactly the common three plus those of its type |
| GetVideoInfo.OfType | tools/get_video_info.py:46-47 | the filtered streams all have the type and come from the list; the result is empty iff no stream has the type; its head is the first such stream |
| GetVideoInfo.SplitDurationExact | tools/get_video_info.py:54-55 | seconds lie in [0, 60), and 60 * minutes + seconds is the floor of the duration |
| GetVideoInfo.SplitDuration | tools/get_video_info.py:54 | the minutes are the floor of the duration divided by 60, and not negative for a non-negative duration |
| GetVideoInfo.ReadFormat | tools/get_video_info.py:140-145 | succeeds iff each numeric field present converts; a present field gives its converted value, a missing one "unknown" or 0; the first failing conversion in duration, size, bit_rate order is the error |
| GetVideoInfo.ReadFormatRoundTrip | tools/get_video_info.py:140-145 | a format whose fields are all present and convert reads back as itself |
| GetVideoInfo.Summarize | tools/get_video_info.py:49-74 | no video stream gives "No video streams found in <filename>" and leaves the resolution alone; otherwise a missing width or height raises the max() TypeError; if not, the resolution becomes the max of old and stream values, never shrinking |
| GetVideoInfo.SummaryLines | tools/get_video_info.py:57-83 | five header lines; then the video codec line, an audio codec line exactly when some stream is audio (the first one's codec), and last the bitrate line in kbps to two decimals |
| GetVideoInfo.VideoInfoResponse.constructor | tools/get_video_info.py:137-151 | a new response has no streams and a 0x0 resolution |
| GetVideoInfo.VideoInfoResponse.AppendStream | tools/get_video_info.py:154-156 | a stream record is appended and nothing else changes |
| GetVideoInfo.VideoInfoResponse.GenerateSummaryText | tools/get_video_info.py:45-83 | the summary or exception text returned, and the resolution left in the dict, are those of Summarize on the old dict; only the resolution changes |
| GetVideoInfo.Analyze | tools/get_video_info.py:85-172 | no video, a failed ffprobe, blank output, unparsable output (the debug_info NameError), a format conversion that raises, and a first video stream without width or height (the max() TypeError) each give their error, as exactly two messages; the report says success iff none of these happens |
| GetVideoInfo.AnalyzeSucceeds | tools/get_video_info.py:137-163 | a successful report yields Summarize's text (the no-video text without a video stream), the converted format block, one record per ffprobe stream in input order, and a resolution of 0x0 without a video stream, else the first video stream's width and height each raised to at least 0 |
| GetVideoInfo.SummaryResolution | tools/get_video_info.py:64-66 | summarizing a fresh 0x0 response leaves 0x0 and the no-video text without a video stream; otherwise the first video stream has a video record and a successful summary sets the resolution to its width and height, each at least 0 |
| GetVideoInfo.ResponseJsonFields | tools/get_video_info.py:137-151 | the response dict holds the format block with its four converted values, the resolution and one record per stream, in order |
| GetVideoInfo.Invoke | tools/get_video_info.py:85-172 | the loop that appends stream records and the in-place summary produce exactly the messages of Analyze |
| Base64ToImage.MatchDataUrl | tools/base64_to_image.py:26-27 | a match starts with `data:image/` and yields a non-empty format without `;` and a non-empty payload without newlines |
| Base64ToImage.MatchSound | tools/base64_to_image.py:26-27 | what the regex match returns is a data URL: prefix, a format without ';', the marker, and a payload without newlines ending at a newline or the end |
| Base64ToImage.MatchComplete | tools/base64_to_image.py:26-27 | every such data URL is matched, with exactly that format and payload |
| Base64ToImage.PayloadEndsAtNewline | tools/base64_to_image.py:26-46 | only the payload up to the first newline is decoded; later lines cannot change the outcome |
| Base64ToImage.Classify | tools/base64_to_image.py:45-59 | the MIME type is always the table's entry for the extension; a known lowercased format is the extension; anything else is image/png with png |
| Base64ToImage.JpegSpellings | tools/base64_to_image.py:49-59 | JPG and jpeg both give image/jpeg, each keeping its own extension |
| Base64ToImage.SourceOf | tools/base64_to_image.py:29-59 | text that is not a data URL is decoded whole as image/png; a data URL's payload is decoded with its format's type |
| Base64ToImage.Invoke | tools/base64_to_image.py:11-103 | missing or empty input is refused; output is the two-message error or three messages; the three begin with the non-empty decoded bytes as `converted_image.<ext>`, then the JSON with image_size = byte count |
| Base64ToImage.InvokeErrors | tools/base64_to_image.py:29-81 | a decode failure reads "Failed to decode base64 data" on the data-URL path and "Invalid base64 string format" otherwise; empty bytes give "Decoded image data is empty"; success iff the bytes are non-empty |

## Left out

- HTTP transport is not modelled: `requests`, timeouts, status codes other than 200, `raise_for_status` and JSON decoding of replies. A reply is a status code, string-valued body fields and raw content. Every raised exception is one value, `Raised`, which both clients treat as a failed step. A field of any other JSON type is not modelled.
- A script that runs out makes every later call fail to connect. The service's real behaviour is not modelled.
- `time.sleep(2)` is counted as a pause rather than slept. The `print` logging is not modelled.
- The plugin's credential store is not modelled. `LoveRemoveBackground.GetAccessToken` receives the key as an optional value, `None` when the lookup would raise.
- The outer `except` handlers of `tools/love_remove_background.py:92-98` and `tools/base64_to_image.py:105-111` are not modelled. Every call inside them already catches its own exceptions or cannot raise on the modelled values.
- ffprobe and ffmpeg are not modelled. Their exit codes, stderr, probed durations and output bytes are inputs. The same holds for temporary files, `os.unlink` cleanup, and the file-system race between the `exists` check and the read.
- The `extension` and `blob` of uploaded videos only shape the temporary file, so they take no part in any outcome.
- `provider/iloveimg_tools_dify.py` is not part of this model. It only reads the credential.
- IEEE floating point is not modelled; durations, gaps and seek times are exact reals.
  - `GetVideoFrameList.ScheduleExact` is stated in exact arithmetic. With floats, `i * gap` could round up to the duration and be dropped.
  - A `nan` or `inf` from `float()` is not modelled.
  - `Text.Fixed2` rounds the exact value half to even. It does not model binary rounding.
- `float()` and `int()` of tool parameters are parse oracles: text in, a number or nothing out.
- `base64.b64decode` is an oracle returning the bytes or the text of its exception.
- `Text.Lower` lowercases ASCII letters only. `str.lower()` on other scripts is not modelled.
- `GetVideoInfo.IsSpace` covers the ASCII whitespace of `str.isspace()`, not the Unicode spaces.
- `GetVideoInfo.Analyze` takes ffprobe's parsed JSON as a typed record. Metadata that is not a dict, and fields of unexpected JSON types, are not modelled.
- The dify_plugin message constructors are not modelled. They become `Values.Message` values in the yielded order.
