/**
 * The page and the backend together: the page's request body is what the
 * handler binds, the pipeline's result is what the handler answers with,
 * and the handler's response is what the page settles with.
 */
module EndToEnd {
  import opened Results
  import opened Wire
  import Api
  import TranscriptionService
  import opened TranscriberPage

  /** The handler always writes a JSON object, so the page's `json()` decodes it. */
  function Receive(r: Response): Settlement
  {
    Responded(r.status, Fields(r.body))
  }

  /** The response the handler writes for the page's request when the service replies `reply`. */
  function Answer(request: Request, reply: Api.ServiceReply): Response
  {
    Api.HandleTranscribe(Fields(request.Payload()), _ => reply).written[0]
  }

  /** A service error reaches the page as a 500 and is shown verbatim; the previous transcription stays. */
  lemma ServiceErrorShownVerbatim(s: FormState, request: Request, text: string, message: string)
    requires request.url != "" && request.language != "" && request.mode != ""
    requires message != ""
    ensures Answer(request, Api.ServiceReply(text, Some(message))).status == StatusInternalServerError
    ensures var t := SettleStep(s, Receive(Answer(request, Api.ServiceReply(text, Some(message)))));
            t.error == message && t.transcription == s.transcription && !t.isLoading
  {
  }

  /** A service success reaches the page as a 200 and its text becomes the transcription. */
  lemma ServiceTextShown(s: FormState, request: Request, text: string)
    requires request.url != "" && request.language != "" && request.mode != ""
    ensures Answer(request, Api.ServiceReply(text, None)).status == StatusOK
    ensures var t := SettleStep(s, Receive(Answer(request, Api.ServiceReply(text, None))));
            t.transcription == text && t.error == s.error && !t.isLoading
  {
  }

  /**
   * A request with an empty language or mode passes the page's check but
   * not the handler's: the page shows the validator's message.
   */
  lemma EmptySelectionRejectedByBackend(s: FormState, request: Request, reply: Api.ServiceReply)
    requires request.url != "" && (request.language == "" || request.mode == "")
    ensures Answer(request, reply).status == StatusBadRequest
    ensures var t := SettleStep(s, Receive(Answer(request, reply)));
            t.error == Answer(request, reply).body["error"] && t.error != "" && t.transcription == s.transcription
  {
  }

  /**
   * One click followed by the backend's work and the page's settlement.
   * `reply` is what the pipeline returned, None when the handler never
   * called it; `response` is what the handler wrote.
   */
  method SubmitAndSettle(form: TranscriberForm, env: TranscriptionService.Collaborators)
    returns (request: Option<Request>, reply: Option<Api.ServiceReply>, response: Option<Response>)
    modifies form
    ensures old(form.url) == "" ==>
              request == None && reply == None && response == None &&
              form.error == EmptyUrlMessage && form.isLoading == old(form.isLoading)
    ensures old(form.url) != "" ==> request.Some? && response.Some? && !form.isLoading
    ensures reply.Some? <==> old(form.url) != "" && old(form.language) != "" && old(form.mode) != ""
    ensures reply.Some? && reply.value.err.Some? ==>
              response.value.status == StatusInternalServerError &&
              form.error == reply.value.err.value && form.transcription == old(form.transcription)
    ensures reply.Some? && reply.value.err.None? ==>
              response.value.status == StatusOK && form.transcription == reply.value.text && form.error == ""
    ensures request.Some? && reply.None? ==>
              response.value.status == StatusBadRequest && "error" in response.value.body &&
              form.error == response.value.body["error"] && form.error != "" &&
              form.transcription == old(form.transcription)
  {
    reply, response := None, None;
    request := form.Submit();
    if request.None? {
      return;
    }
    var req := request.value;
    var body := Fields(req.Payload());
    var bound := Api.Bind(body);
    var served := Api.ServiceReply("", None);
    if bound.Ok? {
      var text, err, trace := TranscriptionService.TranscribeVideo(env, bound.value.url, bound.value.language, bound.value.mode);
      served := Api.ServiceReply(text, err);
      reply := Some(served);
      if err.Some? {
        assert TranscriptionService.StartsWith(TranscriptionService.DownloadFailure, err.value) ||
               TranscriptionService.StartsWith(TranscriptionService.ExtractFailure, err.value) ||
               TranscriptionService.StartsWith(TranscriptionService.TranscribeFailure, err.value);
        ServiceErrorShownVerbatim(form.State(), req, text, err.value);
      } else {
        ServiceTextShown(form.State(), req, text);
      }
    } else {
      EmptySelectionRejectedByBackend(form.State(), req, served);
    }
    var handled := Api.HandleTranscribe(body, _ => served);
    response := Some(handled.written[0]);
    form.Settle(Receive(handled.written[0]));
  }
}
