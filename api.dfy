/**
 * The HTTP handler `handleTranscribe`: bind the JSON body to a
 * `TranscriptionRequest`, call the service, and write one JSON response.
 */
module Api {
  import opened Results
  import opened Wire

  datatype TranscriptionRequest = TranscriptionRequest(url: string, language: string, mode: string)

  /** The three fields of `TranscriptionRequest`, each tagged `binding:"required"`. */
  datatype Field = UrlField | LanguageField | ModeField

  /** The fields in declaration order, the order the validator reports them in. */
  const RequiredFields := [UrlField, LanguageField, ModeField]

  function JsonKey(f: Field): string
  {
    match f
    case UrlField => "url"
    case LanguageField => "language"
    case ModeField => "mode"
  }

  function GoName(f: Field): string
  {
    match f
    case UrlField => "URL"
    case LanguageField => "Language"
    case ModeField => "Mode"
  }

  /** `required` on a string: the member is there and is not the empty string. */
  predicate Present(o: JsonObject, f: Field)
  {
    JsonKey(f) in o && o[JsonKey(f)] != ""
  }

  /** The required fields that fail validation, in declaration order. */
  function MissingFields(o: JsonObject, fields: seq<Field>): (m: seq<Field>)
    ensures forall f :: f in m <==> f in fields && !Present(o, f)
    ensures |m| <= |fields|
  {
    if fields == [] then []
    else (if Present(o, fields[0]) then [] else [fields[0]]) + MissingFields(o, fields[1..])
  }

  /** The missing fields are reported in declaration order, each at most once. */
  lemma MissingFieldsInOrder(o: JsonObject)
    ensures MissingFields(o, RequiredFields) ==
              (if Present(o, UrlField) then [] else [UrlField]) +
              (if Present(o, LanguageField) then [] else [LanguageField]) +
              (if Present(o, ModeField) then [] else [ModeField])
  {
    var rest := [LanguageField, ModeField];
    assert RequiredFields[1..] == rest && rest[1..] == [ModeField] && [ModeField][1..] == [];
    assert MissingFields(o, [ModeField]) == (if Present(o, ModeField) then [] else [ModeField]);
    assert MissingFields(o, rest) == (if Present(o, LanguageField) then [] else [LanguageField]) + MissingFields(o, [ModeField]);
  }

  /** Why `ShouldBindJSON` failed. */
  datatype BindError = Malformed(reason: string) | MissingRequired(fields: seq<Field>)
  {
    /** The text of `err.Error()`. */
    function Message(): string
    {
      match this
      case Malformed(reason) => reason
      case MissingRequired(fields) => JoinLines(fields)
    }
  }

  /** One validator line per failing field, separated by newlines. */
  function JoinLines(fields: seq<Field>): (s: string)
    ensures fields != [] ==> s != []
  {
    if fields == [] then ""
    else if |fields| == 1 then FieldMessage(fields[0])
    else FieldMessage(fields[0]) + "\n" + JoinLines(fields[1..])
  }

  function FieldMessage(f: Field): string
  {
    "Key: 'TranscriptionRequest." + GoName(f) + "' Error:Field validation for '" + GoName(f) + "' failed on the 'required' tag"
  }

  /**
   * `c.ShouldBindJSON(&req)`: an undecodable body or any required field
   * that is absent or empty is an error; `language` and `mode` are not
   * checked against any list of values.
   */
  function Bind(body: JsonBody): (r: Result<TranscriptionRequest, BindError>)
    ensures r.Ok? <==> body.Fields? && Present(body.fields, UrlField) && Present(body.fields, LanguageField) && Present(body.fields, ModeField)
    ensures r.Ok? ==> r.value == TranscriptionRequest(body.fields["url"], body.fields["language"], body.fields["mode"])
    ensures body.Unparseable? ==> r == Err(Malformed(body.reason))
    ensures r.Err? && r.error.MissingRequired? ==> r.error.fields != [] && r.error.Message() != ""
  {
    match body
    case Unparseable(reason) => Err(Malformed(reason))
    case Fields(o) =>
      var missing := MissingFields(o, RequiredFields);
      assert RequiredFields[0] == UrlField && RequiredFields[1] == LanguageField && RequiredFields[2] == ModeField;
      if missing != [] then
        assert missing[0] in missing && !Present(o, missing[0]);
        Err(MissingRequired(missing))
      else
        assert UrlField !in missing && LanguageField !in missing && ModeField !in missing;
        Ok(TranscriptionRequest(o["url"], o["language"], o["mode"]))
  }

  /** What `TranscribeVideo` returned: the text and Go's error value. */
  datatype ServiceReply = ServiceReply(text: string, err: Option<string>)

  /** What one request did: the service calls it made and the responses it wrote. */
  datatype Handled = Handled(serviceCalls: seq<TranscriptionRequest>, written: seq<Response>)

  function ErrorBody(message: string): JsonObject
  {
    map["error" := message]
  }

  function TextBody(text: string): JsonObject
  {
    map["text" := text]
  }

  /** `handleTranscribe` for one request body, with the service as a function of the bound request. */
  function HandleTranscribe(body: JsonBody, service: TranscriptionRequest -> ServiceReply): (h: Handled)
    ensures |h.written| == 1 && |h.serviceCalls| <= 1
    ensures Bind(body).Err? ==>
              h.serviceCalls == [] && h.written[0] == Response(StatusBadRequest, ErrorBody(Bind(body).error.Message()))
    ensures Bind(body).Ok? ==>
              var reply := service(Bind(body).value);
              h.serviceCalls == [Bind(body).value] &&
              h.written[0] == (if reply.err.Some? then Response(StatusInternalServerError, ErrorBody(reply.err.value))
                               else Response(StatusOK, TextBody(reply.text)))
  {
    match Bind(body)
    case Err(e) => Handled([], [Response(StatusBadRequest, ErrorBody(e.Message()))])
    case Ok(req) =>
      var reply := service(req);
      if reply.err.Some? then Handled([req], [Response(StatusInternalServerError, ErrorBody(reply.err.value))])
      else Handled([req], [Response(StatusOK, TextBody(reply.text))])
  }

  /**
   * The wire contract the page relies on: a 200 carries exactly the member
   * "text", any other status exactly the member "error", and no other
   * status than 200, 400 and 500 is written.
   */
  lemma WireContract(body: JsonBody, service: TranscriptionRequest -> ServiceReply)
    ensures var r := HandleTranscribe(body, service).written[0];
            (r.status == StatusOK || r.status == StatusBadRequest || r.status == StatusInternalServerError) &&
            (r.status == StatusOK <==> r.body.Keys == {"text"}) &&
            (r.status != StatusOK <==> r.body.Keys == {"error"})
  {
  }

  /** The service runs exactly when binding succeeds, and only on requests with every field filled in. */
  lemma ServiceCalledIffBound(body: JsonBody, service: TranscriptionRequest -> ServiceReply)
    ensures var h := HandleTranscribe(body, service);
            (|h.serviceCalls| == 1 <==> body.Fields? && forall f :: f in RequiredFields ==> Present(body.fields, f)) &&
            (forall req :: req in h.serviceCalls ==> req.url != "" && req.language != "" && req.mode != "")
  {
  }

  /**
   * Binding inverts the page's JSON encoding whenever every field is
   * non-empty: any language and mode strings reach the service unchanged.
   */
  lemma BindDecodesEncodedRequest(url: string, language: string, mode: string)
    requires url != "" && language != "" && mode != ""
    ensures Bind(Fields(EncodeRequest(url, language, mode))) == Ok(TranscriptionRequest(url, language, mode))
  {
  }

  /** An empty value in any one field is rejected as a missing required field, naming that field. */
  lemma EmptyFieldIsRejected(url: string, language: string, mode: string)
    requires url == "" || language == "" || mode == ""
    ensures var r := Bind(Fields(EncodeRequest(url, language, mode)));
            r.Err? && r.error.MissingRequired? &&
            (url == "" <==> UrlField in r.error.fields) &&
            (language == "" <==> LanguageField in r.error.fields) &&
            (mode == "" <==> ModeField in r.error.fields)
  {
  }
}
