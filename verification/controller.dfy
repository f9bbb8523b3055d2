/**
 * The recording controller of the voice-memo page: the button that starts
 * and stops a recording, the recorder's `dataavailable` and `stop`
 * handlers, and the success and failure branches of the upload.
 *
 * Every browser effect is an event delivered to one transition function,
 * `Step`: the answer to a microphone request, a data chunk, the recorder's
 * stop signal, the settlement of an upload. The microphone request is not
 * atomic: a click asks for permission and leaves the status as it is until
 * the answer arrives, and nothing stops a second click from asking again.
 */
module Controller {
  import opened Options
  import opened Strings
  import opened Transport
  import Negotiator

  datatype Status = Idle | Recording | Uploading | Done | Error

  /** `MediaRecorder.state` as the controller reads it: "recording" or "inactive". */
  datatype RecorderState = Active | Inactive

  /**
   * One recorder, with what its handlers closed over when it was created:
   * the negotiated format and the template of the click that asked for it.
   * `stopDelivered` says its `stop` event has fired; `trackStops` counts how
   * often the tracks of its microphone stream have been stopped.
   */
  datatype Capture = Capture(
    state: RecorderState,
    mime: string,
    template: string,
    stopDelivered: bool,
    trackStops: nat)

  /** One upload: the request sent and whether its fetch has settled. */
  datatype Attempt = Attempt(request: Request, settled: bool)

  /**
   * The controller. `status`, `template`, `result` and `errorMsg` are what
   * the page shows; the rest is private. `recorder` is the recorder the
   * controller holds (an index into `captures`), `chunks` the buffer that
   * data events fill, and `prompts` the microphone requests still awaiting
   * an answer, each with the template of the click that made it.
   */
  datatype Session = Session(
    status: Status,
    template: string,
    result: Json,
    errorMsg: string,
    recorder: Option<nat>,
    chunks: seq<Chunk>,
    prompts: seq<string>,
    captures: seq<Capture>,
    uploads: seq<Attempt>)

  datatype Event =
    | Click
    | SelectTemplate(id: string)
    | PermissionGranted(prompt: nat)
    | PermissionDenied(prompt: nat)
    | DataAvailable(source: nat, chunk: Chunk)
    | RecorderStopped(source: nat)
    | UploadSettled(upload: nat, settlement: Settlement)

  const DeniedMessage: string := "Mikrofon-Zugriff verweigert. Bitte in den Einstellungen erlauben."

  /** The page as first shown, with `template` preselected. */
  function Init(template: string): (s: Session)
    ensures s.status == Idle && s.result == JNull && s.errorMsg == ""
    ensures s.recorder == None && s.chunks == [] && s.template == template
  {
    Session(Idle, template, JNull, "", None, [], [], [], [])
  }

  predicate WellFormed(s: Session)
  {
    s.recorder.Some? ==> s.recorder.value < |s.captures|
  }

  /**
   * The events the browser can deliver in state `s`: the template selector
   * only while it is enabled, an answer only to a request still waiting, data
   * only from a recorder whose stop event has not fired, a stop event only
   * from a recorder that was stopped and only once, and one settlement per
   * upload.
   */
  predicate Deliverable(s: Session, e: Event)
  {
    match e
    case Click => true
    case SelectTemplate(_) => s.status != Recording && s.status != Uploading
    case PermissionGranted(i) => i < |s.prompts|
    case PermissionDenied(i) => i < |s.prompts|
    case DataAvailable(k, _) => k < |s.captures| && !s.captures[k].stopDelivered
    case RecorderStopped(k) =>
      k < |s.captures| && s.captures[k].state == Inactive && !s.captures[k].stopDelivered
    case UploadSettled(u, _) => u < |s.uploads| && !s.uploads[u].settled
  }

  function RemoveAt<T>(q: seq<T>, i: nat): (r: seq<T>)
    requires i < |q|
    ensures |r| == |q| - 1
  {
    q[..i] + q[i + 1..]
  }

  /** The recorder the controller holds exists and its state is `st`. */
  predicate HeldIs(s: Session, st: RecorderState)
  {
    s.recorder.Some? && s.recorder.value < |s.captures| && s.captures[s.recorder.value].state == st
  }

  /**
   * Starting a recording: clear the result and the error, then ask for the
   * microphone. Nothing else changes until the answer arrives.
   */
  function Start(s: Session): (r: Session)
    ensures r.result == JNull && r.errorMsg == ""
    ensures r.prompts == s.prompts + [s.template]
    ensures r.status == s.status && r.recorder == s.recorder && r.chunks == s.chunks
    ensures r.captures == s.captures && r.uploads == s.uploads && r.template == s.template
  {
    s.(result := JNull, errorMsg := "", prompts := s.prompts + [s.template])
  }

  /**
   * Stopping a recording: only when the held recorder is recording, which
   * it then stops, and the status becomes `Uploading` at once, before the
   * stop event arrives. Otherwise nothing at all changes.
   */
  function Stop(s: Session): (r: Session)
    requires WellFormed(s)
    ensures HeldIs(s, Active) ==>
              && r.status == Uploading
              && HeldIs(r, Inactive)
              && |r.captures| == |s.captures|
              && (forall k :: 0 <= k < |s.captures| && Some(k) != s.recorder ==> r.captures[k] == s.captures[k])
              && r.captures[s.recorder.value] == s.captures[s.recorder.value].(state := Inactive)
              && r.(status := s.status, captures := s.captures) == s
    ensures !HeldIs(s, Active) ==> r == s
  {
    if HeldIs(s, Active) then
      var k := s.recorder.value;
      s.(captures := s.captures[k := s.captures[k].(state := Inactive)], status := Uploading)
    else s
  }

  /** The button: stop while recording, start from idle, done or error, and nothing while uploading. */
  function ButtonClick(s: Session): (r: Session)
    requires WellFormed(s)
  {
    if s.status == Recording then Stop(s)
    else if s.status == Idle || s.status == Done || s.status == Error then Start(s)
    else s
  }

  /**
   * The microphone was granted to request `i`: negotiate the format, create
   * a recorder that records in it for the template of that request, hold it,
   * empty the chunk buffer, and show `Recording`.
   */
  function Grant(s: Session, i: nat, supported: string -> bool): (r: Session)
    requires i < |s.prompts|
    ensures r.status == Recording && r.chunks == []
    ensures |r.captures| == |s.captures| + 1 && r.captures[..|s.captures|] == s.captures
    ensures r.recorder == Some(|s.captures|)
    ensures r.captures[|s.captures|]
            == Capture(Active, Negotiator.Negotiate(supported), s.prompts[i], false, 0)
    ensures r.prompts == RemoveAt(s.prompts, i)
    ensures r.result == s.result && r.errorMsg == s.errorMsg
    ensures r.uploads == s.uploads && r.template == s.template
  {
    var mime := Negotiator.Negotiate(supported);
    var recorder := Capture(Active, mime, s.prompts[i], false, 0);
    s.(prompts := RemoveAt(s.prompts, i),
       captures := s.captures + [recorder],
       recorder := Some(|s.captures|),
       chunks := [],
       status := Recording)
  }

  /**
   * The microphone was refused to request `i`: show the permission error.
   * No recorder is created and the chunk buffer is not touched.
   */
  function Deny(s: Session, i: nat): (r: Session)
    requires i < |s.prompts|
    ensures r.status == Error && r.errorMsg == DeniedMessage && r.errorMsg != ""
    ensures r.prompts == RemoveAt(s.prompts, i)
    ensures r.recorder == s.recorder && r.captures == s.captures && r.chunks == s.chunks
    ensures r.uploads == s.uploads && r.result == s.result && r.template == s.template
  {
    s.(prompts := RemoveAt(s.prompts, i), errorMsg := DeniedMessage, status := Error)
  }

  /**
   * A `dataavailable` event: a chunk of positive size joins the end of the
   * buffer the controller currently holds, whatever the status; an empty
   * one is dropped.
   */
  function Collect(s: Session, c: Chunk): (r: Session)
    ensures Size(c) > 0 ==> r.chunks == s.chunks + [c]
    ensures Size(c) == 0 ==> r.chunks == s.chunks
    ensures r.(chunks := s.chunks) == s
  {
    if Size(c) > 0 then s.(chunks := s.chunks + [c]) else s
  }

  /**
   * The `stop` event of recorder `k`: stop its stream's tracks, then start
   * one upload of the chunks buffered now, labelled with the format and the
   * template the recorder captured. The status does not change.
   */
  function StopSignal(s: Session, k: nat): (r: Session)
    requires k < |s.captures|
    ensures |r.captures| == |s.captures|
    ensures r.captures[k] == s.captures[k].(stopDelivered := true, trackStops := s.captures[k].trackStops + 1)
    ensures forall j :: 0 <= j < |s.captures| && j != k ==> r.captures[j] == s.captures[j]
    ensures r.uploads
            == s.uploads + [Attempt(MakeRequest(s.chunks, s.captures[k].mime, s.captures[k].template), false)]
    ensures r.(captures := s.captures, uploads := s.uploads) == s
  {
    var c := s.captures[k];
    var request := MakeRequest(s.chunks, c.mime, c.template);
    s.(captures := s.captures[k := c.(stopDelivered := true, trackStops := c.trackStops + 1)],
       uploads := s.uploads + [Attempt(request, false)])
  }

  /**
   * Upload `u` settled: on success the parsed body becomes the result and
   * the status `Done`; on any failure the message becomes the error and the
   * status `Error`. The status is never left at `Uploading`.
   */
  function Finish(s: Session, u: nat, st: Settlement): (r: Session)
    requires u < |s.uploads|
    ensures r.status == Done || r.status == Error
    ensures r.status == Done <==> Settle(st).Succeeded?
    ensures Settle(st).Succeeded? ==> r.result == Settle(st).value && r.errorMsg == s.errorMsg
    ensures Settle(st).Failed? ==> r.errorMsg == Settle(st).message && r.result == s.result
    ensures r.uploads == s.uploads[u := s.uploads[u].(settled := true)]
    ensures r.recorder == s.recorder && r.captures == s.captures && r.chunks == s.chunks
    ensures r.prompts == s.prompts && r.template == s.template
  {
    var uploads := s.uploads[u := s.uploads[u].(settled := true)];
    match Settle(st)
    case Succeeded(v) => s.(uploads := uploads, result := v, status := Done)
    case Failed(msg) => s.(uploads := uploads, errorMsg := msg, status := Error)
  }

  /** The controller's reaction to one event. */
  function Step(s: Session, e: Event, supported: string -> bool): (r: Session)
    requires WellFormed(s) && Deliverable(s, e)
    ensures WellFormed(r)
  {
    match e
    case Click => ButtonClick(s)
    case SelectTemplate(id) => s.(template := id)
    case PermissionGranted(i) => Grant(s, i, supported)
    case PermissionDenied(i) => Deny(s, i)
    case DataAvailable(_, c) => Collect(s, c)
    case RecorderStopped(k) => StopSignal(s, k)
    case UploadSettled(u, st) => Finish(s, u, st)
  }

  // ---------------------------------------------------------------------
  // The button

  /**
   * A click stops while recording, asks for the microphone (clearing the
   * result and the error) from idle, done or error, and changes nothing at
   * all while uploading.
   */
  lemma ClickDispatch(s: Session, supported: string -> bool)
    requires WellFormed(s)
    ensures s.status == Recording ==> Step(s, Click, supported) == Stop(s)
    ensures s.status == Uploading ==> Step(s, Click, supported) == s
    ensures s.status in {Idle, Done, Error} ==>
              var r := Step(s, Click, supported);
              && r.status == s.status
              && r.result == JNull && r.errorMsg == ""
              && r.prompts == s.prompts + [s.template]
              && r.recorder == s.recorder && r.captures == s.captures
              && r.chunks == s.chunks && r.uploads == s.uploads
  {
  }

  /** The template can be changed only while neither recording nor uploading. */
  lemma SelectOnlyWhenEnabled(s: Session, id: string, supported: string -> bool)
    requires WellFormed(s)
    ensures Deliverable(s, SelectTemplate(id)) <==> s.status in {Idle, Done, Error}
    ensures Deliverable(s, SelectTemplate(id)) ==>
              Step(s, SelectTemplate(id), supported) == s.(template := id)
  {
  }

  // ---------------------------------------------------------------------
  // Invariant of every reachable session

  function StopsDelivered(cs: seq<Capture>): (count: nat)
  {
    if cs == [] then 0 else (if cs[0].stopDelivered then 1 else 0) + StopsDelivered(cs[1..])
  }

  /** A recorder's tracks are stopped once if its stop event fired and never otherwise. */
  predicate ReleasedOnce(c: Capture)
  {
    && c.trackStops == (if c.stopDelivered then 1 else 0)
    && (c.stopDelivered ==> c.state == Inactive)
  }

  /**
   * Something is still due that ends `Uploading`: the stop event of the
   * held recorder, which starts an upload, or an upload not yet settled.
   */
  predicate ExitPending(s: Session)
    requires WellFormed(s) && s.recorder.Some?
  {
    || !s.captures[s.recorder.value].stopDelivered
    || exists u :: 0 <= u < |s.uploads| && !s.uploads[u].settled
  }

  predicate Inv(s: Session)
  {
    && WellFormed(s)
    && (s.status == Idle ==> s.captures == [] && s.recorder == None)
    && (s.status == Recording ==> HeldIs(s, Active))
    && (s.status == Uploading ==> HeldIs(s, Inactive) && ExitPending(s))
    && (forall k :: 0 <= k < |s.captures| ==> ReleasedOnce(s.captures[k]))
    && |s.uploads| == StopsDelivered(s.captures)
  }

  lemma InitInv(template: string)
    ensures Inv(Init(template))
  {
  }

  lemma {:induction false} StopsDeliveredAppend(cs: seq<Capture>, c: Capture)
    ensures StopsDelivered(cs + [c]) == StopsDelivered(cs) + (if c.stopDelivered then 1 else 0)
  {
    if cs != [] {
      assert (cs + [c])[1..] == cs[1..] + [c];
      StopsDeliveredAppend(cs[1..], c);
    } else {
      assert [c][1..] == [];
    }
  }

  lemma {:induction false} StopsDeliveredUpdate(cs: seq<Capture>, k: nat, c: Capture)
    requires k < |cs|
    ensures StopsDelivered(cs[k := c]) + (if cs[k].stopDelivered then 1 else 0)
            == StopsDelivered(cs) + (if c.stopDelivered then 1 else 0)
  {
    if k == 0 {
      assert cs[k := c][1..] == cs[1..];
    } else {
      assert cs[k := c][1..] == cs[1..][k - 1 := c];
      StopsDeliveredUpdate(cs[1..], k - 1, c);
    }
  }

  /** Every deliverable event keeps the invariant. */
  lemma StepPreservesInv(s: Session, e: Event, supported: string -> bool)
    requires Inv(s) && Deliverable(s, e)
    ensures Inv(Step(s, e, supported))
  {
    var r := Step(s, e, supported);
    match e
    case Click =>
      if s.status == Recording {
        StopKeepsInv(s);
      }
    case SelectTemplate(_) =>
    case PermissionGranted(i) =>
      StopsDeliveredAppend(s.captures, r.captures[|s.captures|]);
      assert s.captures + [r.captures[|s.captures|]] == r.captures;
    case PermissionDenied(_) =>
    case DataAvailable(_, _) =>
    case RecorderStopped(k) =>
      StopSignalKeepsInv(s, k);
    case UploadSettled(_, _) =>
  }

  /** Stopping the held recorder while recording keeps the invariant. */
  lemma StopKeepsInv(s: Session)
    requires Inv(s) && s.status == Recording
    ensures Inv(Stop(s))
  {
    var k := s.recorder.value;
    StopsDeliveredUpdate(s.captures, k, s.captures[k].(state := Inactive));
  }

  /** A stop event keeps the invariant: its upload is the one still to settle. */
  lemma StopSignalKeepsInv(s: Session, k: nat)
    requires Inv(s) && Deliverable(s, RecorderStopped(k))
    ensures Inv(StopSignal(s, k))
  {
    var c := s.captures[k];
    var r := StopSignal(s, k);
    StopsDeliveredUpdate(s.captures, k, c.(stopDelivered := true, trackStops := c.trackStops + 1));
    assert !r.uploads[|s.uploads|].settled;
  }

  /** Runs a sequence of events; `None` when one of them cannot be delivered. */
  function Run(s: Session, events: seq<Event>, supported: string -> bool): (r: Option<Session>)
    requires Inv(s)
    ensures r.Some? ==> Inv(r.value)
    decreases |events|
  {
    if events == [] then Some(s)
    else if !Deliverable(s, events[0]) then None
    else
      StepPreservesInv(s, events[0], supported);
      Run(Step(s, events[0], supported), events[1..], supported)
  }

  /** Running a sequence that starts with a deliverable event is stepping, then running the rest. */
  lemma RunStep(s: Session, e: Event, rest: seq<Event>, supported: string -> bool)
    requires Inv(s) && Deliverable(s, e)
    ensures Inv(Step(s, e, supported))
    ensures Run(s, [e] + rest, supported) == Run(Step(s, e, supported), rest, supported)
  {
    StepPreservesInv(s, e, supported);
    assert ([e] + rest)[0] == e && ([e] + rest)[1..] == rest;
  }

  /** Running two sequences one after the other is running their concatenation. */
  lemma {:induction false} RunAppend(s: Session, a: seq<Event>, b: seq<Event>, supported: string -> bool)
    requires Inv(s)
    requires Run(s, a, supported).Some?
    ensures Run(s, a + b, supported) == Run(Run(s, a, supported).value, b, supported)
    decreases |a|
  {
    if a != [] {
      assert (a + b)[0] == a[0] && (a + b)[1..] == a[1..] + b;
      StepPreservesInv(s, a[0], supported);
      RunAppend(Step(s, a[0], supported), a[1..], b, supported);
    } else {
      assert a + b == b;
    }
  }

  // ---------------------------------------------------------------------
  // Properties of reachable sessions

  /** While recording, the held recorder is recording, so a click always stops it. */
  lemma ClickWhileRecordingStops(s: Session, supported: string -> bool)
    requires Inv(s) && s.status == Recording
    ensures Step(s, Click, supported).status == Uploading
    ensures HeldIs(Step(s, Click, supported), Inactive)
  {
  }

  /** The tracks of every recorder are stopped at most once, and exactly once after its stop event. */
  lemma TracksReleasedOnce(s: Session, k: nat)
    requires Inv(s) && k < |s.captures|
    ensures s.captures[k].trackStops <= 1
    ensures s.captures[k].trackStops == 1 <==> s.captures[k].stopDelivered
  {
  }

  /** Once left, the idle status never comes back. */
  lemma NeverReturnsToIdle(s: Session, e: Event, supported: string -> bool)
    requires WellFormed(s) && Deliverable(s, e) && s.status != Idle
    ensures Step(s, e, supported).status != Idle
  {
  }

  /** In the idle status no recorder exists, so nothing can stop one. */
  lemma IdleHasNoRecorder(s: Session, supported: string -> bool)
    requires Inv(s) && s.status == Idle
    ensures Stop(s) == s
    ensures forall e :: Deliverable(s, e) ==> !e.DataAvailable? && !e.RecorderStopped? && !e.UploadSettled?
  {
  }

  /**
   * A recorder the controller no longer holds but that is still recording
   * stays recording after every event, and is never held again: the only
   * way to stop a recorder goes through the one the controller holds.
   */
  lemma OrphanStaysActive(s: Session, e: Event, k: nat, supported: string -> bool)
    requires Inv(s) && Deliverable(s, e)
    requires k < |s.captures| && s.recorder != Some(k) && s.captures[k].state == Active
    ensures var r := Step(s, e, supported);
      k < |r.captures| && r.recorder != Some(k) && r.captures[k].state == Active
  {
  }

  // ---------------------------------------------------------------------
  // Data, stop signal, upload

  function DataEvents(k: nat, chunks: seq<Chunk>): (es: seq<Event>)
    ensures |es| == |chunks|
    ensures forall i :: 0 <= i < |es| ==> es[i] == DataAvailable(k, chunks[i])
  {
    if chunks == [] then [] else [DataAvailable(k, chunks[0])] + DataEvents(k, chunks[1..])
  }

  /**
   * Data events from a live recorder append exactly the chunks of positive
   * size, in arrival order, and change nothing else.
   */
  lemma {:induction false} DataArrivalOrder(s: Session, k: nat, chunks: seq<Chunk>, supported: string -> bool)
    requires Inv(s) && k < |s.captures| && !s.captures[k].stopDelivered
    ensures Run(s, DataEvents(k, chunks), supported) == Some(s.(chunks := s.chunks + NonEmpty(chunks)))
    decreases |chunks|
  {
    if chunks != [] {
      var es := DataEvents(k, chunks);
      var s' := Step(s, es[0], supported);
      StepPreservesInv(s, es[0], supported);
      assert es[1..] == DataEvents(k, chunks[1..]);
      DataArrivalOrder(s', k, chunks[1..], supported);
      assert s'.chunks + NonEmpty(chunks[1..]) == s.chunks + NonEmpty(chunks);
    } else {
      assert s.chunks + [] == s.chunks;
    }
  }

  /** A grant followed by data from the new recorder: a fresh buffer holding the chunks of positive size. */
  lemma GrantThenData(s: Session, i: nat, chunks: seq<Chunk>, supported: string -> bool)
    requires Inv(s) && i < |s.prompts|
    ensures Run(s, [PermissionGranted(i)] + DataEvents(|s.captures|, chunks), supported)
            == Some(Grant(s, i, supported).(chunks := NonEmpty(chunks)))
  {
    var s1 := Step(s, PermissionGranted(i), supported);
    StepPreservesInv(s, PermissionGranted(i), supported);
    RunStep(s, PermissionGranted(i), DataEvents(|s.captures|, chunks), supported);
    DataArrivalOrder(s1, |s.captures|, chunks, supported);
    assert s1.chunks + NonEmpty(chunks) == NonEmpty(chunks);
  }

  /**
   * A click while recording, data from the held recorder, then its stop
   * event: the data joins the buffer, and the upload carries all of it.
   */
  lemma StopDataSignal(s: Session, after: seq<Chunk>, supported: string -> bool)
    requires Inv(s) && s.status == Recording
    ensures var n := s.recorder.value;
      var run := Run(s, [Click] + DataEvents(n, after) + [RecorderStopped(n)], supported);
      && run.Some?
      && run.value.status == Uploading
      && run.value.result == s.result && run.value.errorMsg == s.errorMsg
      && run.value.uploads
         == s.uploads + [Attempt(MakeRequest(s.chunks + NonEmpty(after), s.captures[n].mime, s.captures[n].template), false)]
      && n < |run.value.captures|
      && run.value.captures[n].trackStops == 1
  {
    var n := s.recorder.value;
    var data := DataEvents(n, after);
    var s3 := Step(s, Click, supported);
    assert [Click] + data == [Click] + data + [];
    RunStep(s, Click, data, supported);
    RunStep(s, Click, [], supported);
    DataArrivalOrder(s3, n, after, supported);
    var s4 := s3.(chunks := s3.chunks + NonEmpty(after));
    RunAppend(s, [Click] + data, [RecorderStopped(n)], supported);
    assert Run(s, [Click] + data, supported) == Some(s4) by {
      RunAppend(s, [Click], data, supported);
    }
    assert [RecorderStopped(n)] == [RecorderStopped(n)] + [];
    RunStep(s4, RecorderStopped(n), [], supported);
  }

  /**
   * One recording from grant to stop event, with data arriving both before
   * the click and between the click and the stop event (a recorder started
   * without a time slice delivers all of it in the latter window). The
   * upload it starts carries exactly the chunks of positive size that
   * arrived, in order (so exactly the bytes of all chunks), the format
   * negotiated at the grant and the template of the click that asked for
   * the microphone; the recorder's tracks have been stopped once, and the
   * status is `Uploading`.
   */
  lemma RecordingUploadsWhatWasCaptured(s: Session, i: nat, before: seq<Chunk>, after: seq<Chunk>,
                                        supported: string -> bool)
    requires Inv(s) && i < |s.prompts|
    ensures var n := |s.captures|;
      var run := Run(s, [PermissionGranted(i)] + DataEvents(n, before) + [Click]
                        + DataEvents(n, after) + [RecorderStopped(n)], supported);
      && run.Some?
      && run.value.status == Uploading
      && run.value.result == s.result && run.value.errorMsg == s.errorMsg
      && run.value.uploads
         == s.uploads + [Attempt(MakeRequest(NonEmpty(before + after), Negotiator.Negotiate(supported), s.prompts[i]), false)]
      && Payload(NonEmpty(before + after)) == Payload(before + after)
      && n < |run.value.captures|
      && run.value.captures[n].trackStops == 1
  {
    var n := |s.captures|;
    var head := [PermissionGranted(i)] + DataEvents(n, before);
    var tail := [Click] + DataEvents(n, after) + [RecorderStopped(n)];
    var s2 := GrantedRecording(s, i, before, supported);
    RunAppend(s, head, tail, supported);
    assert head + tail == [PermissionGranted(i)] + DataEvents(n, before) + [Click]
                          + DataEvents(n, after) + [RecorderStopped(n)];
    assert Run(s, head + tail, supported) == Run(s2, tail, supported);
    StopDataSignal(s2, after, supported);
    NonEmptyAppend(before, after);
    assert s2.chunks + NonEmpty(after) == NonEmpty(before + after);
    assert s2.captures[n].mime == Negotiator.Negotiate(supported) && s2.captures[n].template == s.prompts[i];
    NonEmptyKeepsPayload(before + after);
  }

  /** The session a grant and the data before the click leave, as `StopDataSignal` needs it. */
  lemma GrantedRecording(s: Session, i: nat, before: seq<Chunk>, supported: string -> bool)
    returns (s2: Session)
    requires Inv(s) && i < |s.prompts|
    ensures Inv(s2) && s2.status == Recording && s2.recorder == Some(|s.captures|)
    ensures Run(s, [PermissionGranted(i)] + DataEvents(|s.captures|, before), supported) == Some(s2)
    ensures s2.chunks == NonEmpty(before) && s2.uploads == s.uploads
    ensures s2.result == s.result && s2.errorMsg == s.errorMsg
    ensures s2.captures[|s.captures|] == Capture(Active, Negotiator.Negotiate(supported), s.prompts[i], false, 0)
  {
    GrantThenData(s, i, before, supported);
    s2 := Grant(s, i, supported).(chunks := NonEmpty(before));
  }

  /** After an upload settles the status is `Done` or `Error`, never `Uploading`. */
  lemma SettledNeverUploading(s: Session, u: nat, st: Settlement, supported: string -> bool)
    requires WellFormed(s) && Deliverable(s, UploadSettled(u, st))
    ensures var r := Step(s, UploadSettled(u, st), supported);
      && r.status in {Done, Error}
      && (r.status == Done <==> st.Responded? && Ok(st.status) && st.body.Parsed?)
      && (r.status == Done ==> r.result == st.body.value)
      && (st.Responded? && !Ok(st.status) ==>
            r.status == Error && Contains(r.errorMsg, Decimal(st.status)))
      && (st.Responded? && Ok(st.status) && st.body.Malformed? ==>
            r.status == Error && r.errorMsg == st.body.message)
      && (st.Rejected? ==> r.status == Error && r.errorMsg == st.message)
  {
    SettleCases(st);
  }

  /**
   * A reachable session never stays `Uploading` for good. If the held
   * recorder's stop event is still due, that event and the settlement of the
   * upload it starts end `Uploading`; otherwise an upload is still waiting
   * for its settlement, and that ends it, whatever the settlement is.
   */
  lemma UploadingAlwaysEnds(s: Session, st: Settlement, supported: string -> bool)
    requires Inv(s) && s.status == Uploading
    ensures var k := s.recorder.value;
      !s.captures[k].stopDelivered ==>
        var r := Run(s, [RecorderStopped(k), UploadSettled(|s.uploads|, st)], supported);
        r.Some? && r.value.status in {Done, Error}
    ensures s.captures[s.recorder.value].stopDelivered ==>
      exists u :: 0 <= u < |s.uploads| && Deliverable(s, UploadSettled(u, st))
                  && Step(s, UploadSettled(u, st), supported).status in {Done, Error}
  {
    var k := s.recorder.value;
    if !s.captures[k].stopDelivered {
      var settle := UploadSettled(|s.uploads|, st);
      RunStep(s, RecorderStopped(k), [settle], supported);
      var s1 := Step(s, RecorderStopped(k), supported);
      assert Deliverable(s1, settle);
      RunStep(s1, settle, [], supported);
    } else {
      var u :| 0 <= u < |s.uploads| && !s.uploads[u].settled;
      assert Step(s, UploadSettled(u, st), supported).status in {Done, Error};
    }
  }
}
