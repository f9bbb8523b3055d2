/**
 * Format negotiation: the recording format is the first entry of a fixed,
 * preference-ordered list of MIME types that the browser reports it can
 * record, or the empty string (let the browser choose) when it can record
 * none of them. The browser's `MediaRecorder.isTypeSupported` is the
 * parameter `supported`.
 */
module Negotiator {

  /** The candidate formats, most preferred first. */
  const Candidates: seq<string> :=
    [ "audio/webm;codecs=opus",  // Chrome and Android
      "audio/webm",              // Chrome and Android, generic variant
      "audio/mp4",               // Safari and iOS
      "audio/ogg;codecs=opus" ]  // Firefox desktop

  /** `r` is the candidate at index `k`, the browser supports it, and it supports none before it. */
  predicate FirstSupportedAt(cands: seq<string>, supported: string -> bool, k: int, r: string)
  {
    && 0 <= k < |cands|
    && cands[k] == r
    && supported(r)
    && forall j :: 0 <= j < k ==> !supported(cands[j])
  }

  predicate NoneSupported(cands: seq<string>, supported: string -> bool)
  {
    forall j :: 0 <= j < |cands| ==> !supported(cands[j])
  }

  /** The first supported entry of `cands`, or `""` when there is none. */
  function FirstSupported(cands: seq<string>, supported: string -> bool): (r: string)
    ensures (r == "" && NoneSupported(cands, supported))
            || exists k :: FirstSupportedAt(cands, supported, k, r)
  {
    if cands == [] then ""
    else if supported(cands[0]) then
      assert FirstSupportedAt(cands, supported, 0, cands[0]);
      cands[0]
    else
      var r := FirstSupported(cands[1..], supported);
      assert (r == "" && NoneSupported(cands, supported))
             || exists k :: FirstSupportedAt(cands, supported, k, r) by {
        if exists k :: FirstSupportedAt(cands[1..], supported, k, r) {
          var k :| FirstSupportedAt(cands[1..], supported, k, r);
          assert FirstSupportedAt(cands, supported, k + 1, r);
        }
      }
      r
  }

  /** The negotiated recording format for a browser with capability `supported`. */
  function Negotiate(supported: string -> bool): (r: string)
  {
    FirstSupported(Candidates, supported)
  }

  /**
   * The negotiated format is the browser's most preferred supported
   * candidate, and it is empty exactly when no candidate is supported.
   */
  lemma NegotiateIsMostPreferred(supported: string -> bool)
    ensures Negotiate(supported) == "" <==> NoneSupported(Candidates, supported)
    ensures Negotiate(supported) != "" ==>
              exists k :: FirstSupportedAt(Candidates, supported, k, Negotiate(supported))
    ensures Negotiate(supported) == "" || Negotiate(supported) in Candidates
  {
    var r := Negotiate(supported);
    if r != "" {
      var k :| FirstSupportedAt(Candidates, supported, k, r);
      assert !NoneSupported(Candidates, supported);
    }
  }

  /**
   * The negotiation loop as the browser runs it: probe the candidates in
   * order and return the first supported one, else the empty string.
   */
  method SupportedMimeType(supported: string -> bool) returns (r: string)
    ensures r == Negotiate(supported)
    ensures r == "" <==> NoneSupported(Candidates, supported)
  {
    var i := 0;
    while i < |Candidates|
      invariant 0 <= i <= |Candidates|
      invariant forall j :: 0 <= j < i ==> !supported(Candidates[j])
    {
      if supported(Candidates[i]) {
        r := Candidates[i];
        NegotiateIsMostPreferred(supported);
        var k :| FirstSupportedAt(Candidates, supported, k, Negotiate(supported));
        assert k == i;
        return;
      }
      i := i + 1;
    }
    r := "";
    NegotiateIsMostPreferred(supported);
  }
}
