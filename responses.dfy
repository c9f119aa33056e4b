/** The HTTP expectation of responses.go. */
module Responses {
  import opened Failures

  /** `Response`: a URL, the status codes accepted, and an optional expected
      body; `Server` is filled in after loading. */
  datatype Response = Response(name: string, url: string, codes: seq<int>, response: string, server: string)

  /** `Response.newFailure`: a failure of this response, on its server. */
  function NewFailure(r: Response, reason: Reason): (f: Failure)
    ensures f.serviceName == r.name && f.server == r.server && f.reason == reason
  {
    Failure(server := r.server, serviceName := r.name, reason := reason)
  }
}
