/** The `fetch` requests the resource screens of frontend-recursos send,
    and how an awaited `fetch` can end. */
module Fetch {
  import opened Json

  datatype HttpMethod = Post | Put

  /** A request: its method, its URL and the object `JSON.stringify` sends. */
  datatype Request = Request(verb: HttpMethod, url: string, body: JsObject)

  /** The end of `await fetch(...)`: a rejection, or a response whose `ok`
      flag is true for a 2xx status. */
  datatype Outcome = Threw | Responded(ok: bool)

  /** The `if (res.ok)` branch is taken. */
  predicate Succeeded(o: Outcome) {
    o.Responded? && o.ok
  }
}
