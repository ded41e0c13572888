# YouTube Video Transcriber — a Dafny model of its request lifecycle

The repository is a one-page web form (`app/page.tsx`) and a small Go backend
(`api/main.go`, `api/service/transcription.go`). The user enters a YouTube URL
and picks a language and a mode. The page POSTs `{url, language, mode}` to
`/api/transcribe`. The handler validates the body and runs the pipeline:
download, extract audio, transcribe, post-process. It answers `{"text": …}` or
`{"error": …}`, and the page shows the text or the error.

This project models three pieces of the repository and proves properties of each:

- **The form** (module `TranscriberPage`, file `page.dfy`). `TranscriberForm` is a class with the six state cells of the
  page. `handleSubmit` is split after `await fetch` into two methods. `Submit`
  validates, marks the form busy and issues the request. `Settle` applies what
  the request came back with. The later awaits on `response.json()` need no
  split of their own: between `await fetch` and the last of them no cell is
  read or written, so `Settle` applies the whole remainder at once. Each method is proved against a pure step function,
  `SubmitStep` or `SettleStep`. Those functions drive `Run`, which is any
  sequence of edits, clicks and settlements. Lemmas about `Run` state what holds
  across overlapping submissions.
- **The pipeline** (module `TranscriptionService`). `TranscribeVideo` is a method over three
  collaborators passed in as functions. It returns the text, Go's error value,
  and a trace of every collaborator call and file removal, in order. Deferred
  removals are a stack that each exit path flushes, so they run last in, first out.
- **The handler** (module `Api`). `Bind` models `ShouldBindJSON` with the three
  `binding:"required"` tags. `HandleTranscribe` is the pure choice of status and
  body.
- `EndToEnd` joins the pieces. A backend failure reaches the page as a 500 with
  `{"error": msg}`, and the page shows `msg` verbatim.

Two behaviours of the code are worth noting:
- The page rejects only the empty URL (`!url`). A blank URL such as `" "` is
  sent.
- A non-2xx response whose body does not parse shows the parse error's own
  message, because `response.json()` throws inside the `try`. It does not show
  the "Failed to transcribe video" fallback.

Outside effects are inputs to the model:
- `fetch` and `response.json()` become the `Settlement` datatype.
- `downloadVideo`, `extractAudio` and `transcribeAudio` become fields of `Collaborators`.
- The repository's placeholder transcriber is `MockTranscribeAudio`.

## Model

| member | source | states |
|---|---|---|
| `TranscriberPage.TranscriberForm.constructor` | app/page.tsx:8-13 | the form starts with url "", language "en", mode "normal", not busy, empty transcription and error |
| `TranscriberPage.TranscriberForm.SetUrl` | app/page.tsx:106 | the URL cell takes any value unvalidated; nothing else changes |
| `TranscriberPage.TranscriberForm.SetLanguage` | app/page.tsx:131 | the language cell takes any value unvalidated; nothing else changes |
| `TranscriberPage.TranscriberForm.SetMode` | app/page.tsx:151 | the mode cell takes any value unvalidated; nothing else changes |
| `TranscriberPage.TranscriberForm.Submit` | app/page.tsx:16-38 | the empty URL sets the error to exactly "Please enter a YouTube URL". It issues no request and leaves the busy flag and transcription as they were. Any other URL, blank ones included, sets busy and clears the error. It then issues exactly one request carrying the current url, language and mode. The inputs never change |
| `TranscriberPage.TranscriberForm.Settle` | app/page.tsx:39-58 | every outcome leaves the form not busy. An ok parsed response sets the transcription to `text` and keeps the error. A non-ok parsed response shows its non-empty `error` member, otherwise "Failed to transcribe video". An unparseable body shows the parse error's message. A thrown Error shows its message. Any other thrown value shows "Failed to transcribe video. Please try again.". Only the ok path writes the transcription |
| `TranscriberPage.SubmitStep` | app/page.tsx:18-38 | the step issues a request exactly when the URL is non-empty. The request carries the current url, language and mode, and the form becomes busy with the error cleared. Otherwise the error is the validation message and the busy flag is kept. Inputs and transcription never change |
| `TranscriberPage.SettleStep` | app/page.tsx:41-58 | the step always clears the busy flag and keeps the inputs. A delivering settlement sets the transcription and keeps the error. A reporting settlement sets the error and keeps the transcription |
| `TranscriberPage.DeliveredOrReported` | app/page.tsx:41-55 | each settlement either delivers a transcription or reports an error, never both and never neither |
| `TranscriberPage.SettleIgnoresLoading` | app/page.tsx:16-59 | the result of settling does not depend on the busy flag |
| `TranscriberPage.SubmitIgnoresLoading` | app/page.tsx:18-24 | submitting while busy issues the same request again; only the disabled button at app/page.tsx:164 discourages it |
| `TranscriberPage.LaterSettleWins` | app/page.tsx:47-57 | of two settlements in either order, the later one decides the busy flag and whichever of transcription or error it writes; the other cell keeps the earlier one's value |
| `TranscriberPage.OverlapShowsResultAndError` | app/page.tsx:23-58 | two overlapping submissions, a failure settling before a success, end idle, showing the new transcription beside the stale error |
| `TranscriberPage.TranscriptionIsLastDelivered` | app/page.tsx:47-48 | after any sequence of events the transcription is the text of the latest delivering settlement (or the starting one): failures never erase it |
| `TranscriberPage.ErrorProvenance` | app/page.tsx:19-55 | after any sequence of events the error is the starting one, empty, the validation message, or a message some settlement reported |
| `TranscriberPage.RequestsFollowClicks` | app/page.tsx:18-38 | every request ever issued carries a non-empty URL, and there is at most one request per click |
| `TranscriberPage.BusyOnlyAfterRequest` | app/page.tsx:23-24 | from the initial state the form is busy only once some request has been issued |
| `TranscriberPage.IdleWhileRequestOutstanding` | app/page.tsx:56-58 | two clicks and one settlement issue two requests yet leave the form idle: the busy flag does not track outstanding requests |
| `Wire.EncodeRequest` | app/page.tsx:33-37 | the request body has exactly the members url, language and mode holding the form's values |
| `TranscriptionService.ProcessTranscription` | api/service/transcription.go:120-131 | the raw text is always a suffix of the result, and only mode "summary" changes the text |
| `TranscriptionService.MockTranscribeAudio` | api/service/transcription.go:113-116 | the placeholder transcriber never fails and always yields the fixed mock sentence, whatever its arguments |
| `TranscriptionService.SummaryAddsPrefix` | api/service/transcription.go:125-127 | post-processing in mode "summary" yields "Summary: " followed by the text |
| `TranscriptionService.OtherModesKeepText` | api/service/transcription.go:120-131 | every other mode, "detailed", "normal" and unknown strings alike, returns the text unchanged |
| `TranscriptionService.ProcessKeepsTextAsSuffix` | api/service/transcription.go:120-131 | in every mode the raw text is a suffix of the result, which is longer by exactly the summary prefix or not at all |
| `TranscriptionService.ProcessIsInjective` | api/service/transcription.go:120-131 | post-processing in a given mode never maps two texts to the same result |
| `TranscriptionService.TranscribeVideo` | api/service/transcription.go:33-56 | a download failure returns "failed to download video: " + msg and runs nothing else. An extraction failure returns "failed to extract audio: " + msg after calling ffmpeg on video+".wav", then removes only the video. A transcription failure returns "failed to transcribe audio: " + msg. Success returns the post-processed text. Both of the last two remove the audio, then the video. On every path each file a step created is removed once, newest first; every error comes with empty text |
| `TranscriptionService.TranscribeVideoWithMock` | api/service/transcription.go:113-116 | with the placeholder transcriber the pipeline fails exactly when download or extraction fails, and every success is the fixed mock sentence post-processed by mode |
| `Api.MissingFields` | api/main.go:17-19 | lists exactly the required fields that are absent or empty |
| `Api.MissingFieldsInOrder` | api/main.go:17-19 | the missing fields come in declaration order (url, language, mode), each at most once |
| `Api.Bind` | api/main.go:16-20 | binding succeeds exactly when the body decodes and url, language and mode are all present and non-empty. The bound request then holds those three values. An undecodable body reports its decoder's reason. A missing-field error names at least one field and has a non-empty message |
| `Api.HandleTranscribe` | api/main.go:68-90 | exactly one response per request. A binding failure gives 400 with `{"error": msg}` and no service call. Otherwise the service is called once with the bound request. An error gives 500 with `{"error": err}`; success gives 200 with `{"text": text}` |
| `Api.WireContract` | api/main.go:72-89 | the status is 200, 400 or 500; a 200 carries exactly the member "text" and every other status exactly the member "error" |
| `Api.ServiceCalledIffBound` | api/main.go:72-78 | the service runs exactly when the body decodes with all three fields filled, and only on such requests |
| `Api.BindDecodesEncodedRequest` | api/main.go:17-19 | any non-empty url, language and mode, even ones outside en/tr/es or normal/detailed/summary, bind back to themselves from the page's request body |
| `Api.EmptyFieldIsRejected` | api/main.go:17-19 | a request body with an empty url, language or mode is rejected as missing exactly the empty fields |
| `EndToEnd.ServiceErrorShownVerbatim` | api/main.go:78-82 | a service error reaches the page as a 500 and the page shows its message verbatim, keeping the previous transcription |
| `EndToEnd.ServiceTextShown` | api/main.go:84-89 | a service success reaches the page as a 200 and its text becomes the transcription |
| `EndToEnd.EmptySelectionRejectedByBackend` | api/main.go:72-75 | an empty language or mode passes the page's check. The backend answers 400, and the page shows the validator's non-empty message |
| `EndToEnd.SubmitAndSettle` | app/page.tsx:16-59 | one click, the pipeline, the handler and the page's settlement together. The pipeline runs exactly when all three fields are non-empty. Its error ends with a 500, that message shown, and the old transcription kept. Its success ends with a 200, that text shown, and the error cleared. Otherwise the page shows the 400 message |

## Left out

- Rendering, styling, the spinner and the conditional display (app/page.tsx:77-212): presentation only.
- `handleCopy` and `handleDownload` (app/page.tsx:62-75): they call the clipboard, `Blob`, a DOM anchor and `URL.createObjectURL`. For the record, the download is named "transcription.txt", has type "text/plain" and holds the transcription verbatim.
- The real `fetch`, the HTTP transport and JSON decoding: the page receives an abstract `Settlement`; the backend's request body is an abstract `JsonBody`.
- Asynchrony: overlapping submissions are modelled as arbitrary interleavings of edits, clicks and settlements (`Run`), not as concurrent tasks.
- JSON values other than strings. A numeric `error` member, a non-string `text`, or a `null` body are not modelled. A `null` body would make reading `errorData.error` throw a TypeError. An absent `text` member, which is undefined in the code, is modelled as the empty string; both display nothing.
- `downloadVideo` (api/service/transcription.go:59-99), `extractAudio` (api/service/transcription.go:102-110) and `transcribeAudio` are not modelled internally. They use the YouTube client, ffmpeg and a placeholder. They are collaborator functions; the placeholder is `MockTranscribeAudio`.
- `NewTranscriptionService` and the service's `downloadDir` field (api/service/transcription.go:14-29): it creates a directory, and only `downloadVideo` reads the field.
- `main()` (api/main.go:30-65): server start-up, CORS configuration, the `PORT` default and the global service variable.
- gin's and the validator's internals. The required rule is "member present and non-empty". The missing-field message is written in the validator's "Key: … Error:Field validation for … failed on the 'required' tag" form joined by newlines. Only its non-emptiness is used.
- Api.Bind: JSON member names are matched exactly (`"url"`, `"language"`, `"mode"`). Go's encoding/json also matches them case-insensitively, so `"URL"` or `"Url"` binds too, and with duplicate members the last one wins. The model reports such bodies as missing the field; the body is a map, so member order is not represented.
- Go strings are byte strings and JavaScript strings are UTF-16; both are modelled as `seq<char>`, with no encoding.
- TranscriptionService.TranscribeVideo: the cleanup guarantee covers the files that successful steps produced. A file that a failing step leaves behind is outside the model, because the steps are. An example is the output `downloadVideo` creates before its stream copy fails.
- The endpoint URL and the `Content-Type: application/json` header are recorded as the constant `TranscriberPage.Endpoint` and in comments; no transport is modelled.
