/**
  The two pure decisions taken around a response: how the tracking middleware
  classifies the finished response it reports, and which status `register`
  sends when a request handler fails.
*/
module Tracking {
  import opened Wrappers

  /** The `response` record handed to the tracker. */
  datatype TrackedResponse<D> = TrackedResponse(code: int, success: bool, error: Option<D>)

  /** The record for a response with status `code` whose body was `data`
      (`None` for `null`/`undefined`). Statuses fall in three bands: below
      200 a response is neither a success nor an error, from 200 to 399 it is
      a success, and from 400 on it is not a success and carries its body as
      the error. No response is both a success and an error. */
  function Track<D>(code: int, data: Option<D>): (r: TrackedResponse<D>)
    ensures r.code == code
    ensures !(r.success && r.error.Some?)
    ensures code < 200 ==> !r.success && r.error.None?
    ensures code >= 400 ==> !r.success && r.error == data
    ensures r.success <==> 200 <= code < 400
    ensures r.error.Some? <==> code >= 400 && data.Some?
    ensures r.error.Some? ==> r.error == data
  {
    TrackedResponse(code, code >= 200 && code < 400, if code >= 400 && data.Some? then data else None)
  }

  /** The status sent for a rejected request: the error's `code` when it is
      truthy, and 500 when it is missing or zero. */
  function ErrorStatus(code: Option<int>): (r: int)
    ensures r != 0
    ensures code.Some? && code.value != 0 ==> r == code.value
    ensures code.None? || code.value == 0 ==> r == 500
  {
    if code.Some? && code.value != 0 then code.value else 500
  }
}
