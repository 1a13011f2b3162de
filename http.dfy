/** HTTP messages exchanged between the single-page app and the edge API. */
module Http {
  import opened Wrappers
  import opened Json

  /** One field of a multipart form: an uploaded file or a plain text value. */
  datatype FormEntry = FileEntry(name: string, contentType: string) | TextEntry(value: string)

  /** A request body: raw text (read with `req.json()`) or a multipart form (`req.formData()`). */
  datatype Body = Text(text: string) | Form(entries: map<string, FormEntry>)

  /** A request as the worker sees it: method (`verb`), URL pathname, `Authorization` header and body. */
  datatype Request = Request(verb: string, path: string, authorization: Option<string>, body: Body)

  /** A response: status, headers, and the JSON body (`None` for a `null` body). */
  datatype Response = Response(status: int, headers: map<string, string>, body: Option<Json>)

  /**
   * What `fetch` gives a client: a status with the body as `response.json()`
   * parses it (`None` when that throws), or a thrown network error.
   */
  datatype Fetch = Responded(status: int, json: Option<Json>) | NetworkError

  /** `response.ok`. */
  predicate IsOk(status: int) {
    200 <= status <= 299
  }
}
