/**
 * Whole sessions from the first page load: the permission refusal, a
 * successful recording, a recording the server rejects, and two clicks
 * during one permission prompt.
 */
module Scenarios {
  import opened Options
  import opened Strings
  import opened Transport
  import opened Controller
  import Negotiator

  /**
   * The events of one recording from page load: click, grant, data `before`
   * the stop click, the stop click, data `after` it, and the stop event.
   */
  function OneRecording(before: seq<Chunk>, after: seq<Chunk>): (es: seq<Event>)
    ensures |es| == |before| + |after| + 4
  {
    [Click] + ([PermissionGranted(0)] + DataEvents(0, before) + [Click] + DataEvents(0, after) + [RecorderStopped(0)])
  }

  /** From the first click to the ready upload: the run every scenario begins with. */
  lemma FirstRecording(template: string, before: seq<Chunk>, after: seq<Chunk>, supported: string -> bool)
    ensures var run := Run(Init(template), OneRecording(before, after), supported);
      && run.Some?
      && run.value.status == Uploading
      && run.value.result == JNull && run.value.errorMsg == ""
      && run.value.uploads
         == [Attempt(MakeRequest(NonEmpty(before + after), Negotiator.Negotiate(supported), template), false)]
      && Payload(NonEmpty(before + after)) == Payload(before + after)
  {
    var s0 := Init(template);
    InitInv(template);
    var s1 := Step(s0, Click, supported);
    var rest := [PermissionGranted(0)] + DataEvents(0, before) + [Click] + DataEvents(0, after) + [RecorderStopped(0)];
    assert OneRecording(before, after) == [Click] + rest;
    RunStep(s0, Click, rest, supported);
    RecordingUploadsWhatWasCaptured(s1, 0, before, after, supported);
  }

  /** A refused microphone: status `Error`, a non-empty message, and no recorder and no upload. */
  lemma PermissionDeniedScenario(template: string, supported: string -> bool)
    ensures var run := Run(Init(template), [Click, PermissionDenied(0)], supported);
      && run.Some?
      && run.value.status == Error
      && run.value.errorMsg == DeniedMessage && run.value.errorMsg != ""
      && run.value.captures == [] && run.value.recorder == None
      && run.value.uploads == []
  {
    var s0 := Init(template);
    InitInv(template);
    var s1 := Step(s0, Click, supported);
    assert [Click, PermissionDenied(0)] == [Click] + [PermissionDenied(0)];
    RunStep(s0, Click, [PermissionDenied(0)], supported);
    assert [PermissionDenied(0)] == [PermissionDenied(0)] + [];
    RunStep(s1, PermissionDenied(0), [], supported);
  }

  /** Settling the only upload of a session is its last step. */
  lemma SettleLast(s: Session, head: seq<Event>, st: Settlement, supported: string -> bool)
    requires Inv(s)
    requires var run := Run(s, head, supported); run.Some? && |run.value.uploads| == 1 && !run.value.uploads[0].settled
    ensures Inv(Run(s, head, supported).value)
    ensures Run(s, head + [UploadSettled(0, st)], supported)
            == Some(Finish(Run(s, head, supported).value, 0, st))
  {
    var mid := Run(s, head, supported).value;
    RunAppend(s, head, [UploadSettled(0, st)], supported);
    assert [UploadSettled(0, st)] == [UploadSettled(0, st)] + [];
    RunStep(mid, UploadSettled(0, st), [], supported);
  }

  /**
   * A successful recording: the parsed body becomes the result, the status
   * is `Done`, and the uploaded bytes are the bytes of every chunk.
   */
  lemma SuccessScenario(template: string, before: seq<Chunk>, after: seq<Chunk>, body: Json,
                        supported: string -> bool)
    ensures var events := OneRecording(before, after) + [UploadSettled(0, Responded(200, Parsed(body)))];
      var run := Run(Init(template), events, supported);
      && run.Some?
      && run.value.status == Done
      && run.value.result == body
      && |run.value.uploads| == 1
      && run.value.uploads[0].request.payload == Payload(before + after)
      && run.value.uploads[0].request.template == template
  {
    var st := Responded(200, Parsed(body));
    InitInv(template);
    FirstRecording(template, before, after, supported);
    SettleLast(Init(template), OneRecording(before, after), st, supported);
    SettleCases(st);
  }

  /** A recording the server answers with status 500: status `Error`, with "500" in the message. */
  lemma ServerErrorScenario(template: string, before: seq<Chunk>, after: seq<Chunk>, body: Body,
                            supported: string -> bool)
    ensures var events := OneRecording(before, after) + [UploadSettled(0, Responded(500, body))];
      var run := Run(Init(template), events, supported);
      && run.Some?
      && run.value.status == Error
      && run.value.errorMsg == "Server-Fehler: 500"
      && Contains(run.value.errorMsg, "500")
      && run.value.result == JNull
  {
    var head := OneRecording(before, after);
    var st := Responded(500, body);
    InitInv(template);
    FirstRecording(template, before, after, supported);
    SettleLast(Init(template), head, st, supported);
    var mid := Run(Init(template), head, supported).value;
    ServerError500(mid, body);
  }

  /** Settling an upload with status 500 reports the status in the message. */
  lemma ServerError500(s: Session, body: Body)
    requires 0 < |s.uploads|
    ensures var r := Finish(s, 0, Responded(500, body));
      && r.status == Error
      && r.errorMsg == "Server-Fehler: 500"
      && Contains(r.errorMsg, "500")
      && r.result == s.result
  {
    SettleCases(Responded(500, body));
    Decimal500();
    ContainsSuffix(ServerErrorPrefix, "500");
  }

  lemma Decimal500()
    ensures Decimal(500) == "500"
  {
    assert Decimal(5) == "5";
    assert Decimal(50) == "50";
  }

  /**
   * Two clicks during one permission prompt ask twice, since the status is
   * still idle; when both are granted the controller holds the second
   * recorder while the first keeps recording, out of reach of every later
   * click.
   */
  lemma SecondClickDuringPrompt(template: string, supported: string -> bool)
    ensures var run := Run(Init(template), [Click, Click, PermissionGranted(0), PermissionGranted(0)], supported);
      && run.Some?
      && run.value.status == Recording
      && |run.value.captures| == 2
      && run.value.recorder == Some(1)
      && run.value.captures[0].state == Active
      && run.value.captures[1].state == Active
  {
    var s0 := Init(template);
    InitInv(template);
    var s1 := Step(s0, Click, supported);
    assert s1.status == Idle && |s1.prompts| == 1;
    var s2 := Step(s1, Click, supported);
    var s3 := Step(s2, PermissionGranted(0), supported);
    var e3 := [PermissionGranted(0)];
    var e2 := [PermissionGranted(0)] + e3;
    var e1 := [Click] + e2;
    assert [Click, Click, PermissionGranted(0), PermissionGranted(0)] == [Click] + e1;
    RunStep(s0, Click, e1, supported);
    RunStep(s1, Click, e2, supported);
    RunStep(s2, PermissionGranted(0), e3, supported);
    assert e3 == [PermissionGranted(0)] + [];
    RunStep(s3, PermissionGranted(0), [], supported);
  }
}
