/** Values shared by the whole client: optional values, results, the errors
    it reports, URL parameters and the description of one GET request. */
module Outcomes {

  datatype Option<+T> = None | Some(value: T)

  /** The errors of the client. The messages of the source are kept as
      comments; errors raised by code outside the model (transport, JSON or
      CSV decoding, integer parsing) are carried as `External`. */
  datatype Error =
    | UnorderedOffset            // "cannot use an offset without setting the order"
    | Done                       // ErrDone, the end of a paged fetch
    | EmptyCountResponse         // "empty count response"
    | NoLastModified             // "cannot get last modified date, field not present in HTTP header"
    | BadResourceUrl             // "Cannot get metadata, is the resource URL used correct?"
    | RemoteStatus(status: int, body: string)   // a reply with status code 400 or more
    | External(message: string)

  datatype Result<+T> = Success(value: T) | Failure(error: Error)

  /** url.Values: every parameter name maps to its list of values. */
  type Values = map<string, seq<string>>

  /** One GET request as the transport would receive it: the full URL
      (endpoint and format), the query parameters before encoding, and the
      application token sent in the X-App-Token header. */
  datatype Request = Request(url: string, params: Values, appToken: string)
}
