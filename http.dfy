/** The part of HTTP the relay and its client observe: a status code and
    whether it counts as success. */
module Http {
  import Js

  /** The status codes modelled: the range HTTP and the Fetch standard give
      meaning to. `NextResponse.json` rejects a status outside 200..599, so
      any status the relay sends back lies in it; the upstream status is
      assumed to lie in it too. */
  type Status = s: int | 200 <= s <= 599 witness 200

  /** `Response.ok`: the status is in the success range. */
  predicate IsOk(status: Status) {
    status <= 299
  }

  /** What `NextResponse.json(body, { status })` sends back: a JSON body and
      a status. */
  datatype JsonResponse = JsonResponse(status: Status, body: Js.Json)
}
