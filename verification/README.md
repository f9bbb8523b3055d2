# VoiceCore recording controller, modelled in Dafny

VoiceCore's web page records a voice memo, tags it with a content template
and uploads it to a backend. This project models the page's recording
controller (`frontend/src/App.jsx`) and proves properties of it:

- **Format negotiation** (`Negotiator`): the first of four MIME types, in
  preference order, that the browser can record, or `""` to let the browser
  choose. The browser's `MediaRecorder.isTypeSupported` is the parameter
  `supported: string -> bool`.
- **Upload labelling and outcome** (`Transport`): the file extension (`m4a`,
  `ogg`, `webm`) and blob type derived from the negotiated format, the bytes
  of the buffered chunks, and how a settled `fetch` becomes a result or an
  error message (`Server-Fehler: <status>` for a response that is not ok).
- **The state machine** (`Controller`): the statuses `Idle`, `Recording`,
  `Uploading`, `Done` and `Error`; the visible `template`, `result` and
  `errorMsg`; and the private recorder reference, chunk buffer and the format
  and template each recorder captured. Every browser effect is an `Event`
  given to one pure function, `Step`: a click, a template selection, the
  answer to a microphone request, a data chunk, a recorder's stop event, and
  the settlement of an upload. `Inv` is proved of every session reachable
  from `Init` (`StepPreservesInv`, `Run`).
- **Whole sessions** (`Scenarios`): a refused microphone, a successful
  upload, an upload rejected with status 500, and two clicks during one
  permission prompt.

`Strings` holds the two JavaScript string operations involved:
`includes` (`Contains`) and the decimal text of a number in a template
literal (`Decimal`, with its inverse `ParseDecimal`).

## How the model reads the code

- **The permission prompt is a pending step, not part of the click.**
  `startRecording` clears the result and the error, then awaits
  `getUserMedia` before it changes the status (App.jsx:55-66). A click from
  idle, done or error therefore only appends a pending request to
  `prompts`, carrying the template of that click; the status stays as it
  was. `PermissionGranted(i)` or `PermissionDenied(i)` answers request `i`.
  The button has no guard against a second click during the prompt
  (App.jsx:104). `SecondClickDuringPrompt` shows that two clicks ask twice
  and that two grants leave the first recorder recording. `OrphanStaysActive`
  shows that no later event can stop that recorder. Nothing in the code
  prevents a second recorder from being created during a permission prompt.
- **Each recorder keeps its own closure.** Every recorder ever created is
  kept in `captures`. Each entry holds the format and template its `onstop`
  handler closed over and counts how often its stream's tracks were stopped.
  `recorder` is the index of the one the controller holds.
- **Data goes to the buffer the controller currently holds, in any status.**
  The handler reads the buffer reference when it runs (App.jsx:77). So the
  final chunk a recorder delivers after `stop()` is appended while the
  status is already `Uploading`. A recorder started without a time slice,
  as at App.jsx:86, delivers all of its data in that window, between the
  stop click and the stop event.
- **The template is fixed by the click.** The upload reads the template
  of the render in which the button was clicked (App.jsx:83, 121). The
  selector is still enabled during the permission prompt, but a change made
  then does not reach the upload (`RecordingUploadsWhatWasCaptured` names
  the template of the answered request).
- **The payload is fixed when the stop event fires.** The blob is built
  before the first `await` of the upload (App.jsx:113).
- **`response.ok`** is `200 <= status <= 299`, as `fetch` defines it.
- **`result` is a JSON value.** `JNull` is JavaScript's `null`, the initial
  and cleared value. A body that parses to `null` leaves `result` null with
  status `Done`, as the code does.
- **The template selector is disabled while recording or uploading**
  (App.jsx:155). This is a rule of the page, not of the controller, so
  `SelectTemplate` is simply not deliverable in those statuses.
- **Idle is never re-entered** (`NeverReturnsToIdle`). No branch of the code
  sets the status back to `idle`.
- **A later event may overwrite an earlier outcome.** An answer to a stale
  prompt, or an upload settling after a new recording has started, writes
  the status and message unconditionally, as the code does. `Inv` states
  only what holds despite this.

## Model

| member | source | states |
|---|---|---|
| Negotiator.FirstSupported | frontend/src/App.jsx:23-26 | the result is `""` with no candidate supported, or the candidate at some index that is supported while every earlier one is not |
| Negotiator.NegotiateIsMostPreferred | frontend/src/App.jsx:16-27 | `Negotiate`, the negotiated format, is the most preferred supported candidate; it is `""` exactly when none is supported; otherwise it is one of the four candidates |
| Negotiator.SupportedMimeType | frontend/src/App.jsx:23-26 | the probing loop returns the same format as the reference definition, and `""` exactly when no candidate is supported |
| Transport.ExtensionCases | frontend/src/App.jsx:115-117 | `Extension` is `m4a` iff the format contains `mp4`, `ogg` iff it contains `ogg` but not `mp4`, `webm` otherwise, and `webm` for the empty format |
| Transport.CandidateExtensions | frontend/src/App.jsx:17-22 | the two WebM candidates map to `webm`, the MP4 candidate to `m4a`, the Ogg candidate to `ogg`, and `""` to `webm` |
| Transport.BlobTypeCases | frontend/src/App.jsx:113 | `BlobType` is never empty: the format itself when one was negotiated, `audio/webm` otherwise |
| Transport.NegotiatedLabelsAgree | frontend/src/App.jsx:113-117 | for every negotiated format the blob type is an `audio/` type, and the extension names the same container as the blob type |
| Transport.NonEmptyKeepsPayload | frontend/src/App.jsx:77 | dropping the zero-size chunks never changes the bytes that are uploaded |
| Transport.MakeRequest | frontend/src/App.jsx:112-121 | the request carries exactly the bytes of the buffered chunks, the captured template, the non-empty blob type of the format, and the file name `recording.` followed by the format's extension, which is `m4a`, `ogg` or `webm` |
| Transport.ServerErrorNamesStatus | frontend/src/App.jsx:130 | the server-error message is non-empty, contains the decimal status, and the status reads back from it |
| Transport.SettleCases | frontend/src/App.jsx:123-139 | `Settle`: an upload succeeds iff the response is ok and its body parses, carrying that body; a response that is not ok fails naming its status whatever its body; a thrown error fails with its own message |
| Strings.Decimal | frontend/src/App.jsx:130 | the decimal text of a number is non-empty, all digits, without a leading zero, and one character long exactly for numbers below ten |
| Strings.DecimalRoundTrip | frontend/src/App.jsx:130 | parsing the decimal text of a number gives the number back |
| Controller.ClickDispatch | frontend/src/App.jsx:101-108 | `Step` on a click, which is `ButtonClick`, stops while recording, changes nothing at all while uploading, and from idle, done or error clears result and error and asks for the microphone without changing the status or the recorder, buffer and uploads |
| Controller.Init | frontend/src/App.jsx:43-50 | the page starts idle, with result null, an empty error message, no recorder, an empty chunk buffer and the preselected template |
| Controller.Start | frontend/src/App.jsx:54-61 | starting clears `result` to null and `errorMsg` to empty and adds one pending microphone request with the current template; the status is unchanged |
| Controller.Stop | frontend/src/App.jsx:92-97 | with the held recorder recording, it is made inactive and the status becomes `Uploading` at once, nothing else changing; otherwise nothing changes |
| Controller.Deny | frontend/src/App.jsx:60-66 | a refusal sets status `Error` with the non-empty permission message, and creates no recorder and leaves the buffer, result and uploads alone |
| Controller.Grant | frontend/src/App.jsx:68-87 | a grant installs a new recording recorder with the negotiated format and the template of its request, empties the buffer and sets status `Recording`, keeping result and error |
| Controller.Collect | frontend/src/App.jsx:76-78 | a chunk of positive size is appended at the end of the buffer, an empty chunk is dropped, and nothing else changes |
| Controller.StopSignal | frontend/src/App.jsx:81-84 | the stop event marks that recorder's stop as delivered and stops its tracks once more, keeping its state, format and template, and starts one upload of the buffered chunks with that recorder's format and template; no other recorder and not the status changes |
| Controller.Finish | frontend/src/App.jsx:123-139 | after an upload settles the status is `Done` with the parsed body as result, or `Error` with the failure message, and never `Uploading` |
| Controller.SelectOnlyWhenEnabled | frontend/src/App.jsx:152-155 | a template can be selected exactly in idle, done and error, and selecting changes only the template |
| Controller.StepPreservesInv | frontend/src/App.jsx:54-139 | every event given to `Step` keeps the invariant: idle has no recorder, recording holds a recording recorder, uploading holds a stopped one whose stop event is still due or has an upload still unsettled, each recorder's tracks are stopped once exactly after its stop event, and there is one upload per stop event |
| Controller.Run | frontend/src/App.jsx:43-50 | every session reached from a session satisfying the invariant by deliverable events satisfies it |
| Controller.ClickWhileRecordingStops | frontend/src/App.jsx:92-103 | in every reachable recording session a click takes effect: the status becomes `Uploading` and the held recorder is inactive |
| Controller.TracksReleasedOnce | frontend/src/App.jsx:81-82 | in every reachable session each recorder's tracks were stopped at most once, and once exactly when its stop event fired |
| Controller.NeverReturnsToIdle | frontend/src/App.jsx:43 | no event leads from any other status back to idle |
| Controller.IdleHasNoRecorder | frontend/src/App.jsx:92-97 | in idle there is no recorder, so stopping changes nothing and no recorder or upload event can arrive |
| Controller.OrphanStaysActive | frontend/src/App.jsx:59-73 | a recorder that is recording but no longer held stays recording and unheld after every event |
| Controller.DataArrivalOrder | frontend/src/App.jsx:76-78 | a run of data events appends exactly the chunks of positive size, in arrival order, and changes nothing else |
| Controller.StopDataSignal | frontend/src/App.jsx:81-94 | a stop click, data from the held recorder and its stop event append the positive-size chunks to the buffer and start one upload of the whole buffer with that recorder's format and template; the status is `Uploading` and the tracks were stopped once |
| Controller.RecordingUploadsWhatWasCaptured | frontend/src/App.jsx:68-121 | grant, data before the stop click, the click, data after it and the stop event start exactly one upload holding the positive-size chunks of both phases in order, so the bytes of all chunks, with the format negotiated at the grant and the template of the click; the tracks were stopped once and the status is `Uploading` |
| Controller.SettledNeverUploading | frontend/src/App.jsx:123-139 | a settled upload leaves the status `Done` or `Error`, never `Uploading`: `Done` with the body iff the response is ok and parses; otherwise `Error`, naming the status for a response that is not ok, giving the parse error's message for an ok response whose body does not parse, and giving the thrown message for a rejected fetch |
| Controller.UploadingAlwaysEnds | frontend/src/App.jsx:81-84 | no reachable session is stuck in `Uploading`: while the held recorder's stop event is due, that event and the settlement of the upload it starts give `Done` or `Error`; after it, some upload is still unsettled and its settlement, whatever it is, gives `Done` or `Error` |
| Scenarios.PermissionDeniedScenario | frontend/src/App.jsx:54-66 | click then refusal: status `Error`, the non-empty permission message, no recorder and no upload |
| Scenarios.SuccessScenario | frontend/src/App.jsx:112-134 | a full recording, with data before and after the stop click, answered by status 200 with a parsed body ends `Done` with that body as result and one upload of every chunk's bytes with the selected template |
| Scenarios.ServerErrorScenario | frontend/src/App.jsx:130-138 | a full recording answered by status 500 ends `Error` with message `Server-Fehler: 500`, which contains `500` |
| Scenarios.SecondClickDuringPrompt | frontend/src/App.jsx:101-106 | two clicks during one prompt ask twice; two grants leave two recording recorders, of which the controller holds only the second |

## Left out

- Rendering, the inline styles and the status display strings (App.jsx:29-37, 142-259): presentation only.
- The backend (`backend/main.py`) and the dev-server configuration: I/O and configuration, not controller logic.
- The `API_URL` lookup and the contents of the template catalog: the initial template is a parameter of `Init`, and a selected template is any string.
- Browser internals (`MediaRecorder`, `getUserMedia`, `Blob`, `FormData`, `fetch`, `response.json()`): each appears only through the events it delivers. Chunk contents are byte sequences. A JSON number is kept as its text, so no floating point is modelled.
- Asynchronous scheduling: each completion is one event to `Step`. The model assumes the page has re-rendered with the latest state before each event, so a click reads the current status.
- A throwing `MediaRecorder` constructor or `recorder.start()`: the code catches neither, and the model does not represent these failures. If the constructor throws (App.jsx:71), the session is unchanged except that the microphone stream from App.jsx:61 is never stopped. If `recorder.start()` throws (App.jsx:86), App.jsx:72-73 have already made the new, inactive recorder the held one and emptied the chunk buffer, the status stays as it was, and the stream is never stopped either.
- A recorder stopping on its own, for example when the microphone is unplugged: a stop event is deliverable only after `stop()` was called.
- Controller.Finish: a thrown error's message is stored as given, so the model does not promise a non-empty message for it. The code shows whatever text the browser's error carries.
