/**
 * The JSON shapes exchanged over `POST /api/transcribe`.
 * A JSON object whose members are all strings is a `map<string, string>`;
 * an absent member is a missing key.
 */
module Wire {

  type JsonObject = map<string, string>

  /** A request or response body as the receiving side decodes it. */
  datatype JsonBody = Unparseable(reason: string) | Fields(fields: JsonObject)

  /** One HTTP response: its status code and its JSON object body. */
  datatype Response = Response(status: int, body: JsonObject)

  const StatusOK := 200
  const StatusBadRequest := 400
  const StatusInternalServerError := 500

  /** The body `JSON.stringify({url, language, mode})` sends. */
  function EncodeRequest(url: string, language: string, mode: string): (o: JsonObject)
    ensures o.Keys == {"url", "language", "mode"}
    ensures o["url"] == url && o["language"] == language && o["mode"] == mode
  {
    map["url" := url, "language" := language, "mode" := mode]
  }
}
