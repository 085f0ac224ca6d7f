/** The retry decision of the NSX policy connector (api/api.go). */
module Retry {
  import opened Common

  /** The HTTP status codes that are worth another attempt. */
  const RetryCodes: seq<int> := [429, 503]

  /** The bounds of the random wait before a retry, in milliseconds. */
  const MinWait: int := 500
  const MaxWait: int := 5000

  /** The retry function: with no response it retries; with one it retries iff the status
      code is listed. Before retrying it waits `MinWait + draw` milliseconds, where `draw`
      stands for `rand.Intn(MaxWait - MinWait)`; it does not wait when it gives up. */
  method ShouldRetry(statusCode: Option<int>, draw: int) returns (retry: bool, wait: Option<int>)
    requires 0 <= draw < MaxWait - MinWait
    ensures retry <==> statusCode.None? || statusCode.value == 429 || statusCode.value == 503
    ensures wait.Some? <==> retry
    ensures wait.Some? ==> wait.value == draw + MinWait && MinWait <= wait.value < MaxWait
  {
    var shouldRetry := false;
    if statusCode.Some? {
      var i := 0;
      while i < |RetryCodes|
        invariant 0 <= i <= |RetryCodes|
        invariant !shouldRetry
        invariant forall j :: 0 <= j < i ==> RetryCodes[j] != statusCode.value
      {
        if statusCode.value == RetryCodes[i] {
          shouldRetry := true;
          break;
        }
        i := i + 1;
      }
      assert RetryCodes[0] == 429 && RetryCodes[1] == 503;
    } else {
      shouldRetry := true;
    }
    if !shouldRetry {
      return false, None;
    }
    var interval := draw + MinWait;
    return true, Some(interval);
  }
}
