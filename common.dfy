/** Values shared by every component of the proxy: optional values, the
    schema-less entity, query-argument values and the exceptions the
    extraction pipeline raises. */
module Common {

  datatype Option<+T> = None | Some(value: T)

  /** An upstream entity. Field values are held in their stringified form.
      The proxy also tests `date_modified` for truthiness and compares raw
      ids with the blacklist; both are read here through that string form
      (README, "## Left out", the line on entity values). */
  type Entity = map<string, string>

  /** A query argument: request arguments are text; the paginator writes the
      next page number as an integer. */
  datatype ArgValue = Text(s: string) | Number(n: int)

  /** The `error` member of an upstream error body: absent, a JSON object
      (possibly with an `http_status_code` member) or some other JSON value. */
  datatype Payload = NoPayload | ObjectPayload(httpStatusCode: Option<int>) | OtherPayload

  /** The exceptions that reach the request handler. */
  datatype Error =
    | Rejected(expiresAt: int)        // pre-check: an active REQUEST_REJECTION window
    | UpstreamError(payload: Payload) // a non-200 upstream status
    | TypeError                       // int(None), iterating None, None + 1
    | ZeroDivision                    // remaining / limit or seconds / remaining
    | NegativeSleep                   // sleep() of a negative duration
    | KeyError(key: string)           // a missing dictionary key
}
