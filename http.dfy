/**
 The values the retrying client and the authorization handler exchange with
 the HTTP transport, abstracted away from the transport itself: a response is
 its status code and the string its content reads as, and a call into the
 transport either completes with a value or throws.
 */
module Http {

  /** A reference that may be null: `None` stands for C#'s `null`. */
  datatype Option<+T> = None | Some(value: T)

  /** How a call that may throw ends: with a value, or with an exception
      that propagates to the caller. */
  datatype Completion<+T> = Normal(value: T) | Exceptional

  /** An HTTP response: the numeric status code and the body as a string. */
  datatype HttpResponse = HttpResponse(status: int, body: string)

  /** A request the client sends: a GET of a URI, or a POST of serialized
      content to a URI. */
  datatype Request = Get(uri: string) | Post(uri: string, content: string)

  /** `HttpStatusCode.Unauthorized`. */
  const Unauthorized: int := 401

  /** `HttpResponseMessage.IsSuccessStatusCode`: the status lies in 200..299. */
  predicate IsSuccessStatusCode(response: HttpResponse)
  {
    200 <= response.status <= 299
  }
}
