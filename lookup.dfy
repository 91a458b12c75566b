/** `get_sample_transcript`: full lookup of a reference sample by call id. */
module Lookup {
  import opened Results
  import opened Shapes

  /** Returns the first sample with the given call id, or None (the HTTP 404). */
  method GetSample(samples: seq<Sample>, callId: string) returns (r: Option<Sample>)
    ensures r.None? <==> forall i :: 0 <= i < |samples| ==> samples[i].callId != callId
    ensures r.Some? ==> exists i :: 0 <= i < |samples| && samples[i] == r.value
                                    && forall j :: 0 <= j < i ==> samples[j].callId != callId
    ensures r.Some? ==> r.value.callId == callId
  {
    for i := 0 to |samples|
      invariant forall j :: 0 <= j < i ==> samples[j].callId != callId
    {
      if samples[i].callId == callId {
        return Some(samples[i]);
      }
    }
    return None;
  }
}
