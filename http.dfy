/** The HTTP surface the handlers see: what the record store answered
    (an input to every handler, since the network is not modelled) and what
    a handler writes back. */
module Http {
  import opened Wrappers
  import opened Json

  const StatusOK := 200
  const StatusCreated := 201
  const StatusSeeOther := 303
  const StatusBadRequest := 400
  const StatusUnauthorized := 401
  const StatusInternalServerError := 500

  /** The base URL of the record store (`pocketBaseURL`). */
  const RecordStoreBase := "http://127.0.0.1:8090"

  /** The body of an upstream reply: `io.ReadAll` (or the JSON decoder's own
      read) failed, or the raw text arrived together with what
      `encoding/json` makes of it, in two ways:
      - `decoded` is what `json.Unmarshal` makes of the whole text (`None`
        unless the text is exactly one JSON value, blanks aside);
      - `leading` is what `json.NewDecoder(...).Decode` reads: the first
        JSON value of the text, whatever follows it (`None` when the text
        does not start with a valid JSON value). */
  datatype Payload =
    | Unreadable
    | Body(raw: string, decoded: Option<Json>, leading: Option<Json>)

  /** The outcome of an `http.Get` / `http.Post` to the record store. */
  datatype Upstream =
    | Unreachable
    | Reply(status: int, payload: Payload)

  /** A POST to the record store: its URL and its JSON object body. */
  datatype Post = Post(url: string, body: map<string, string>)

  /** An inbound request: its path, its cookies by name (`r.Cookie`) and its
      headers by canonical name (`r.Header.Get`). */
  datatype Request = Request(path: string, cookies: map<string, string>, headers: map<string, string>)

  datatype Content =
    | Text(text: string)
    | JsonContent(value: Json)
    | Raw(bytes: string)

  datatype Response = Response(status: int, content: Content)

  /** A handler that issues one GET: the URL it requested and its answer. */
  datatype Fetched = Fetched(url: string, response: Response)

  /** `http.Error(w, message, status)`: the status, and the message followed
      by a newline as a plain-text body. */
  function Error(message: string, status: int): (r: Response)
    ensures r.status == status && r.content.Text?
    ensures |r.content.text| == |message| + 1
    ensures r.content.text[..|message|] == message && r.content.text[|message|] == '\n'
  {
    Response(status, Text(message + "\n"))
  }

  /** Whether a reply body was read and `json.Unmarshal` decodes it into a
      Go map. */
  predicate ReplyDecodesAsMap(p: Payload) {
    p.Body? && p.decoded.Some? && DecodesAsMap(p.decoded.value)
  }

  /** Whether a reply body was read and `json.Decoder` reads a Go map from
      its start (trailing text is never looked at). */
  predicate ReplyStartsWithMap(p: Payload) {
    p.Body? && p.leading.Some? && DecodesAsMap(p.leading.value)
  }
}
