/** tools/base64_to_image.py: accept either a data URL of the form
    data:image/<format>;base64,<payload> (a subset of the data URLs of section 3 of RFC 2397)
    or bare base64 text, decode it, and yield the image under a name derived from its format. */
module Base64ToImage {
  import opened Values
  import Text

  /** The first index of c in s, or |s| when c does not occur. */
  function FirstIndex(s: string, c: char): (k: nat)
    ensures k <= |s|
    ensures forall i :: 0 <= i < k ==> s[i] != c
    ensures k < |s| ==> s[k] == c
    decreases |s|
  {
    if s == [] then 0
    else if s[0] == c then 0
    else
      var k := FirstIndex(s[1..], c);
      assert forall i :: 1 <= i < k + 1 ==> s[i] == s[1..][i - 1];
      1 + k
  }

  const DataPrefix := "data:image/"
  const Base64Marker := ";base64,"

  /** re.match(r'data:image/([^;]+);base64,(.+)', s): anchored at the start only. The format
      group cannot reach past a ';', so it ends at the first one; the payload group takes
      every character up to the first newline and must take at least one. */
  function MatchDataUrl(s: string): (m: Option<(string, string)>)
    ensures m.Some? ==> DataPrefix <= s && m.value.0 != [] && m.value.1 != [] &&
                        ';' !in m.value.0 && '\n' !in m.value.1
  {
    var a := |DataPrefix|;
    if !(DataPrefix <= s) then None
    else
      var b := a + FirstIndex(s[a..], ';');
      if b == a || !(Base64Marker <= s[b..]) then None
      else
        var c := b + |Base64Marker|;
        var n := c + FirstIndex(s[c..], '\n');
        if n == c then None else Some((s[a..b], s[c..n]))
  }

  /** The reference reading of the pattern: s starts with the prefix, a non-empty format
      without ';', the marker and a non-empty payload without newlines, and the payload ends
      at the end of s or at a newline. */
  predicate IsDataUrl(s: string, format: string, payload: string)
  {
    var a := |DataPrefix|;
    var b := a + |format|;
    var c := b + |Base64Marker|;
    var n := c + |payload|;
    n <= |s| && s[..a] == DataPrefix && s[a..b] == format && s[b..c] == Base64Marker && s[c..n] == payload &&
    format != [] && (forall i :: 0 <= i < |format| ==> format[i] != ';') &&
    payload != [] && (forall i :: 0 <= i < |payload| ==> payload[i] != '\n') &&
    (n == |s| || s[n] == '\n')
  }

  lemma MatchSound(s: string)
    requires MatchDataUrl(s).Some?
    ensures IsDataUrl(s, MatchDataUrl(s).value.0, MatchDataUrl(s).value.1)
  {
    var a := |DataPrefix|;
    var b := a + FirstIndex(s[a..], ';');
    var c := b + |Base64Marker|;
    var n := c + FirstIndex(s[c..], '\n');
    assert s[b..c] == s[b..][..|Base64Marker|];
    assert n < |s| ==> s[n] == s[c..][n - c];
  }

  lemma MatchComplete(s: string, format: string, payload: string)
    requires IsDataUrl(s, format, payload)
    ensures MatchDataUrl(s) == Some((format, payload))
  {
    var a := |DataPrefix|;
    var b := a + |format|;
    var c := b + |Base64Marker|;
    var n := c + |payload|;
    assert s[..a] == DataPrefix;
    assert s[a..][|format|] == s[b] == ';' by {
      assert s[b..c][0] == ';';
    }
    forall i | 0 <= i < |format|
      ensures s[a..][i] != ';'
    {
      assert s[a..][i] == s[a..b][i];
    }
    assert FirstIndex(s[a..], ';') == |format|;
    assert s[b..][..|Base64Marker|] == s[b..c];
    forall i | 0 <= i < |payload|
      ensures s[c..][i] != '\n'
    {
      assert s[c..][i] == s[c..n][i];
    }
    assert n < |s| ==> s[c..][|payload|] == s[n];
    assert FirstIndex(s[c..], '\n') == |payload|;
  }

  /** The format table of lines 49-56. */
  const MimeTypes: map<string, string> := map[
    "png" := "image/png", "jpg" := "image/jpeg", "jpeg" := "image/jpeg",
    "gif" := "image/gif", "bmp" := "image/bmp", "webp" := "image/webp"]

  /** The lowercased format picks the MIME type and is kept as the extension when the table
      knows it; anything else becomes image/png with extension png. */
  function Classify(format: string): (r: (string, string))
    ensures r.1 in MimeTypes && MimeTypes[r.1] == r.0
    ensures Text.Lower(format) in MimeTypes ==> r.1 == Text.Lower(format)
    ensures Text.Lower(format) !in MimeTypes ==> r == ("image/png", "png")
  {
    var lower := Text.Lower(format);
    if lower in MimeTypes then (MimeTypes[lower], lower) else ("image/png", "png")
  }

  /** jpg and jpeg name the same type, each keeping its own extension. */
  lemma JpegSpellings()
    ensures Classify("JPG") == ("image/jpeg", "jpg") && Classify("jpeg") == ("image/jpeg", "jpeg")
  {
    assert Text.Lower("JPG") == "jpg";
    assert Text.Lower("jpeg") == "jpeg";
  }

  /** What the tool decodes and how it types the result: the data URL's payload with the
      type its format names, or the whole input typed image/png when it is not a data URL. */
  datatype Source = Source(text: string, mimeType: string, extension: string, fromDataUrl: bool)

  function SourceOf(s: string): (r: Source)
    ensures MatchDataUrl(s).None? ==> r == Source(s, "image/png", "png", false)
    ensures MatchDataUrl(s).Some? ==>
      r.fromDataUrl && r.text == MatchDataUrl(s).value.1 && (r.mimeType, r.extension) == Classify(MatchDataUrl(s).value.0)
    ensures r.extension in MimeTypes && MimeTypes[r.extension] == r.mimeType
  {
    var m := MatchDataUrl(s);
    if m.None? then Source(s, "image/png", "png", false)
    else
      var (mimeType, extension) := Classify(m.value.0);
      Source(m.value.1, mimeType, extension, true)
  }

  /** _invoke, as the messages it yields; `decode` is base64.b64decode, giving the bytes or
      the text of the exception it raises. */
  function Invoke(input: Option<string>, decode: string -> Result<seq<byte>, string>): (messages: seq<Message>)
    ensures input.None? || input == Some("") ==> messages == ErrorMessages("No base64 image string provided")
    ensures |messages| == 2 || |messages| == 3
    ensures |messages| == 3 ==>
      var source := SourceOf(input.value);
      var data := decode(source.text);
      data.Ok? && data.value != [] &&
      messages[0] == Blob(data.value, "converted_image." + source.extension, source.mimeType) &&
      messages[1].Json? && "image_size" in messages[1].body && messages[1].body["image_size"] == JInt(|data.value|)
  {
    if input.None? || input.value == "" then ErrorMessages("No base64 image string provided")
    else
      var source := SourceOf(input.value);
      var decoded := decode(source.text);
      if decoded.Err? then
        if source.fromDataUrl then ErrorMessages("Failed to decode base64 data: " + decoded.error)
        else ErrorMessages("Invalid base64 string format: " + decoded.error)
      else if decoded.value == [] then ErrorMessages("Decoded image data is empty")
      else
        var data := decoded.value;
        var name := "converted_image." + source.extension;
        [Blob(data, name, source.mimeType),
         Json(map["status" := JStr("success"),
                  "message" := JStr("Successfully converted base64 string to image"),
                  "output_filename" := JStr(name),
                  "mime_type" := JStr(source.mimeType),
                  "image_size" := JInt(|data|)]),
         Text("Successfully converted base64 string to " + name + " (" + Text.NatToString(|data|) + " bytes)")]
  }

  /** The error paths: a decode failure is reported differently on the two paths, and empty
      bytes are refused on both. */
  lemma InvokeErrors(input: string, decode: string -> Result<seq<byte>, string>)
    requires input != ""
    ensures var source := SourceOf(input);
      var data := decode(source.text);
      (data.Err? && MatchDataUrl(input).Some? ==>
         Invoke(Some(input), decode) == ErrorMessages("Failed to decode base64 data: " + data.error)) &&
      (data.Err? && MatchDataUrl(input).None? ==>
         Invoke(Some(input), decode) == ErrorMessages("Invalid base64 string format: " + data.error)) &&
      (data == Ok([]) ==> Invoke(Some(input), decode) == ErrorMessages("Decoded image data is empty")) &&
      (data.Ok? && data.value != [] <==> |Invoke(Some(input), decode)| == 3)
  {
  }

  /** Only the payload up to the first newline is decoded: whatever follows it on later
      lines does not change the outcome. */
  lemma PayloadEndsAtNewline(format: string, payload: string, rest1: string, rest2: string,
                             decode: string -> Result<seq<byte>, string>)
    requires format != [] && (forall i :: 0 <= i < |format| ==> format[i] != ';')
    requires payload != [] && (forall i :: 0 <= i < |payload| ==> payload[i] != '\n')
    ensures var s1 := DataPrefix + format + Base64Marker + payload + "\n" + rest1;
      var s2 := DataPrefix + format + Base64Marker + payload + "\n" + rest2;
      Invoke(Some(s1), decode) == Invoke(Some(s2), decode) &&
      SourceOf(s1).text == payload
  {
    var s1 := DataPrefix + format + Base64Marker + payload + "\n" + rest1;
    var s2 := DataPrefix + format + Base64Marker + payload + "\n" + rest2;
    MatchOf(format, payload, rest1);
    MatchOf(format, payload, rest2);
    assert SourceOf(s1) == SourceOf(s2);
  }

  /** A data URL followed by a newline and anything at all matches with its own format
      and payload. */
  lemma MatchOf(format: string, payload: string, rest: string)
    requires format != [] && (forall i :: 0 <= i < |format| ==> format[i] != ';')
    requires payload != [] && (forall i :: 0 <= i < |payload| ==> payload[i] != '\n')
    ensures var s := DataPrefix + format + Base64Marker + payload + "\n" + rest;
      s != "" && MatchDataUrl(s) == Some((format, payload))
  {
    var s := DataPrefix + format + Base64Marker + payload + "\n" + rest;
    SlicesOf(format, payload, rest);
    MatchComplete(s, format, payload);
  }

  lemma SlicesOf(format: string, payload: string, rest: string)
    ensures var s := DataPrefix + format + Base64Marker + payload + "\n" + rest;
      var a := |DataPrefix|;
      var b := a + |format|;
      var c := b + |Base64Marker|;
      var n := c + |payload|;
      n < |s| && s[..a] == DataPrefix && s[a..b] == format && s[b..c] == Base64Marker && s[c..n] == payload &&
      s[n] == '\n'
  {
  }
}
