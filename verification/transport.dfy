/**
 * The upload side of the recording controller: how the captured chunks,
 * the negotiated format and the selected template become one multipart
 * request, and how the settled request becomes a success value or an
 * error message.
 */
module Transport {
  import opened Strings
  import Negotiator

  /** One `Blob` delivered by a `dataavailable` event; its size is its byte count. */
  datatype Chunk = Chunk(bytes: seq<bv8>)

  function Size(c: Chunk): (n: nat)
  {
    |c.bytes|
  }

  /** The content of the `Blob` built from `chunks`: their bytes, in order. */
  function Payload(chunks: seq<Chunk>): (bytes: seq<bv8>)
  {
    if chunks == [] then [] else chunks[0].bytes + Payload(chunks[1..])
  }

  /** The chunks whose size is greater than zero, in arrival order. */
  function NonEmpty(chunks: seq<Chunk>): (r: seq<Chunk>)
    ensures forall i :: 0 <= i < |r| ==> Size(r[i]) > 0
    ensures |r| <= |chunks|
  {
    if chunks == [] then []
    else if Size(chunks[0]) > 0 then [chunks[0]] + NonEmpty(chunks[1..])
    else NonEmpty(chunks[1..])
  }

  /** Filtering a concatenation filters each part. */
  lemma {:induction false} NonEmptyAppend(a: seq<Chunk>, b: seq<Chunk>)
    ensures NonEmpty(a + b) == NonEmpty(a) + NonEmpty(b)
  {
    if a == [] {
      assert a + b == b;
    } else {
      assert (a + b)[0] == a[0] && (a + b)[1..] == a[1..] + b;
      NonEmptyAppend(a[1..], b);
    }
  }

  /** Skipping the zero-size chunks never changes the bytes that are uploaded. */
  lemma {:induction false} NonEmptyKeepsPayload(chunks: seq<Chunk>)
    ensures Payload(NonEmpty(chunks)) == Payload(chunks)
  {
    if chunks != [] {
      NonEmptyKeepsPayload(chunks[1..]);
      if Size(chunks[0]) > 0 {
        var r := [chunks[0]] + NonEmpty(chunks[1..]);
        assert r[0] == chunks[0] && r[1..] == NonEmpty(chunks[1..]);
      } else {
        assert chunks[0].bytes == [];
      }
    }
  }

  /** The file extension sent to the backend for a recording in format `mime`. */
  function Extension(mime: string): (ext: string)
  {
    if Contains(mime, "mp4") then "m4a"
    else if Contains(mime, "ogg") then "ogg"
    else "webm"
  }

  /** The `type` of the uploaded `Blob`: the negotiated format, or WebM when it is empty. */
  function BlobType(mime: string): (t: string)
  {
    if mime != "" then mime else "audio/webm"
  }

  /** The file name of the multipart `audio` field. */
  function FileName(mime: string): (name: string)
  {
    "recording." + Extension(mime)
  }

  /**
   * The extension mapping: an MP4 marker wins over an Ogg marker, and
   * everything else, the empty format included, is labelled WebM.
   */
  lemma ExtensionCases(mime: string)
    ensures Extension(mime) in {"m4a", "ogg", "webm"}
    ensures Extension(mime) == "m4a" <==> Contains(mime, "mp4")
    ensures Extension(mime) == "ogg" <==> !Contains(mime, "mp4") && Contains(mime, "ogg")
    ensures Extension(mime) == "webm" <==> !Contains(mime, "mp4") && !Contains(mime, "ogg")
    ensures mime == "" ==> Extension(mime) == "webm"
  {
    if mime == "" {
      AbsentCharNotContained(mime, "mp4", 0);
      AbsentCharNotContained(mime, "ogg", 0);
    }
  }

  /** The blob type is never empty, and it is the format itself whenever one was negotiated. */
  lemma BlobTypeCases(mime: string)
    ensures BlobType(mime) != ""
    ensures mime != "" ==> BlobType(mime) == mime
    ensures mime == "" ==> BlobType(mime) == "audio/webm"
  {
  }

  predicate StartsWith(s: string, prefix: string)
  {
    |prefix| <= |s| && s[..|prefix|] == prefix
  }

  /**
   * For every format the negotiator can return, the extension names the
   * same container as the blob type, and the blob type is an audio type.
   */
  lemma NegotiatedLabelsAgree(supported: string -> bool)
    ensures var mime := Negotiator.Negotiate(supported);
      && StartsWith(BlobType(mime), "audio/")
      && (Extension(mime) == "webm" <==> StartsWith(BlobType(mime), "audio/webm"))
      && (Extension(mime) == "m4a" <==> BlobType(mime) == "audio/mp4")
      && (Extension(mime) == "ogg" <==> StartsWith(BlobType(mime), "audio/ogg"))
  {
    var mime := Negotiator.Negotiate(supported);
    Negotiator.NegotiateIsMostPreferred(supported);
    CandidateExtensions();
    if mime == "" {
      EmptyLabelsAgree();
    } else if mime == "audio/webm;codecs=opus" || mime == "audio/webm" {
      WebmLabelsAgree();
    } else if mime == "audio/ogg;codecs=opus" {
      OggLabelsAgree();
    } else {
      Mp4LabelsAgree();
    }
  }

  /** The blob type is an audio type naming the same container as the extension. */
  predicate LabelsAgree(mime: string)
  {
    && StartsWith(BlobType(mime), "audio/")
    && (Extension(mime) == "webm" <==> StartsWith(BlobType(mime), "audio/webm"))
    && (Extension(mime) == "m4a" <==> BlobType(mime) == "audio/mp4")
    && (Extension(mime) == "ogg" <==> StartsWith(BlobType(mime), "audio/ogg"))
  }

  lemma EmptyLabelsAgree()
    ensures LabelsAgree("")
  {
    CandidateExtensions();
    assert BlobType("")[..|"audio/webm"|] == "audio/webm";
    NotStartsWith(BlobType(""), "audio/ogg", 6);
  }

  lemma WebmLabelsAgree()
    ensures LabelsAgree("audio/webm;codecs=opus") && LabelsAgree("audio/webm")
  {
    CandidateExtensions();
    assert "audio/webm;codecs=opus"[..|"audio/webm"|] == "audio/webm";
    NotStartsWith("audio/webm;codecs=opus", "audio/ogg", 6);
    NotStartsWith("audio/webm", "audio/ogg", 6);
  }

  lemma OggLabelsAgree()
    ensures LabelsAgree("audio/ogg;codecs=opus")
  {
    CandidateExtensions();
    NotStartsWith("audio/ogg;codecs=opus", "audio/webm", 6);
    assert "audio/ogg;codecs=opus"[..|"audio/ogg"|] == "audio/ogg";
  }

  lemma Mp4LabelsAgree()
    ensures LabelsAgree("audio/mp4")
  {
    CandidateExtensions();
    NotStartsWith("audio/mp4", "audio/webm", 6);
    NotStartsWith("audio/mp4", "audio/ogg", 6);
  }

  lemma NotStartsWith(s: string, prefix: string, i: nat)
    requires i < |prefix| && i < |s| && s[i] != prefix[i]
    ensures !StartsWith(s, prefix)
  {
    if |prefix| <= |s| {
      assert s[..|prefix|][i] == s[i];
    }
  }

  /** The extension of each candidate format, and of the empty format. */
  lemma CandidateExtensions()
    ensures Extension("audio/webm;codecs=opus") == "webm"
    ensures Extension("audio/webm") == "webm"
    ensures Extension("audio/mp4") == "m4a"
    ensures Extension("audio/ogg;codecs=opus") == "ogg"
    ensures Extension("") == "webm"
  {
    AbsentCharNotContained("audio/webm;codecs=opus", "mp4", 2);
    AbsentCharNotContained("audio/webm;codecs=opus", "ogg", 1);
    AbsentCharNotContained("audio/webm", "mp4", 2);
    AbsentCharNotContained("audio/webm", "ogg", 1);
    ContainsAt("audio/mp4", "mp4", 6);
    AbsentCharNotContained("audio/ogg;codecs=opus", "mp4", 2);
    ContainsAt("audio/ogg;codecs=opus", "ogg", 6);
    ExtensionCases("");
  }

  /** The multipart body of one upload: the audio blob and the template id. */
  datatype Request = Request(payload: seq<bv8>, blobType: string, fileName: string, template: string)

  /** The request built from the buffered chunks, the captured format and the captured template. */
  function MakeRequest(chunks: seq<Chunk>, mime: string, template: string): (req: Request)
    ensures req.payload == Payload(chunks)
    ensures req.template == template
    ensures req.blobType == BlobType(mime) && req.blobType != ""
    ensures req.fileName == "recording." + Extension(mime)
    ensures req.fileName[|"recording."|..] in {"m4a", "ogg", "webm"}
  {
    ExtensionCases(mime);
    assert FileName(mime)[|"recording."|..] == Extension(mime);
    Request(Payload(chunks), BlobType(mime), FileName(mime), template)
  }

  /** A JSON value as `response.json()` produces it; `JNull` is also JavaScript's `null`. */
  datatype Json =
    | JNull
    | JBool(b: bool)
    | JNumber(text: string)
    | JString(s: string)
    | JArray(items: seq<Json>)
    | JObject(members: seq<(string, Json)>)

  /** What reading the response body as JSON gives: a value, or the message of the error it throws. */
  datatype Body = Parsed(value: Json) | Malformed(message: string)

  /** How the `fetch` of one upload settles: a response, or a rejection with an error message. */
  datatype Settlement =
    | Responded(status: nat, body: Body)
    | Rejected(message: string)

  /** `response.ok`: the status is in the 2xx range. */
  predicate Ok(status: nat)
  {
    200 <= status <= 299
  }

  const ServerErrorPrefix: string := "Server-Fehler: "

  /** The message of the error raised for a response that is not ok. */
  function ServerErrorMessage(status: nat): (msg: string)
  {
    ServerErrorPrefix + Decimal(status)
  }

  /** The server-error message is non-empty, names the status, and gives the status back. */
  lemma ServerErrorNamesStatus(status: nat)
    ensures ServerErrorMessage(status) != ""
    ensures Contains(ServerErrorMessage(status), Decimal(status))
    ensures ParseDecimal(ServerErrorMessage(status)[|ServerErrorPrefix|..]) == status
  {
    ContainsSuffix(ServerErrorPrefix, Decimal(status));
    assert ServerErrorMessage(status)[|ServerErrorPrefix|..] == Decimal(status);
    DecimalRoundTrip(status);
  }

  datatype Outcome = Succeeded(value: Json) | Failed(message: string)

  /** The outcome of one upload: the `try` block of the upload and its `catch`. */
  function Settle(s: Settlement): (o: Outcome)
  {
    match s
    case Rejected(msg) => Failed(msg)
    case Responded(status, body) =>
      if !Ok(status) then Failed(ServerErrorMessage(status))
      else
        match body
        case Parsed(v) => Succeeded(v)
        case Malformed(msg) => Failed(msg)
  }

  /**
   * An upload succeeds exactly when the response is ok and its body parses,
   * and then carries the parsed body; a response that is not ok fails with
   * a message naming its status, whatever its body; any thrown error fails
   * with that error's own message.
   */
  lemma SettleCases(s: Settlement)
    ensures Settle(s).Succeeded? <==> s.Responded? && Ok(s.status) && s.body.Parsed?
    ensures Settle(s).Succeeded? ==> Settle(s).value == s.body.value
    ensures s.Responded? && !Ok(s.status) ==>
              Settle(s) == Failed(ServerErrorMessage(s.status))
              && Contains(Settle(s).message, Decimal(s.status))
    ensures s.Rejected? ==> Settle(s) == Failed(s.message)
    ensures s.Responded? && Ok(s.status) && s.body.Malformed? ==> Settle(s) == Failed(s.body.message)
  {
    if s.Responded? {
      ServerErrorNamesStatus(s.status);
    }
  }
}
