/**
 * The page's form: three input cells (url, language, mode) and three
 * lifecycle cells (isLoading, transcription, error), and `handleSubmit`
 * split after `await fetch` into `Submit` (validate, mark busy, issue the
 * POST) and `Settle` (apply what the POST came back with). The later awaits
 * on `response.json()` do not need their own split: between `await fetch`
 * and the last of them no cell is read or written, so `Settle` applies the
 * whole remainder at once.
 */
module TranscriberPage {
  import opened Results
  import opened Wire

  const EmptyUrlMessage := "Please enter a YouTube URL"
  const FailedMessage := "Failed to transcribe video"
  const RetryMessage := "Failed to transcribe video. Please try again."

  /** Where every request goes, as `POST` with `Content-Type: application/json`. */
  const Endpoint := "http://localhost:8080/api/transcribe"

  /** The fields of one outbound POST body. */
  datatype Request = Request(url: string, language: string, mode: string)
  {
    function Payload(): JsonObject
    {
      EncodeRequest(url, language, mode)
    }
  }

  /** A value the `try` block can throw: an `Error` with its message, or anything else. */
  datatype Thrown = ErrorValue(message: string) | OtherValue

  /**
   * How the POST settles: a response with its status and its body as
   * `response.json()` decodes it (an undecodable body makes `json()` throw
   * an `Error` with `reason` as its message), or `fetch` itself throwing.
   */
  datatype Settlement = Responded(status: int, body: JsonBody) | Rejected(thrown: Thrown)

  /** `response.ok`. */
  predicate IsOk(status: int)
  {
    200 <= status <= 299
  }

  /** `data.text`; an absent member (undefined) shows as the empty string. */
  function TextField(o: JsonObject): string
  {
    if "text" in o then o["text"] else ""
  }

  /** `errorData.error || "Failed to transcribe video"`. */
  function ErrorFieldOr(o: JsonObject): string
  {
    if "error" in o && o["error"] != "" then o["error"] else FailedMessage
  }

  datatype FormState = FormState(
    url: string, language: string, mode: string,
    isLoading: bool, transcription: string, error: string)

  /** The `useState` defaults. */
  function Initial(): FormState
  {
    FormState("", "en", "normal", false, "", "")
  }

  /** The text a settlement delivers to `setTranscription`, if the `try` block completes. */
  function Delivered(o: Settlement): Option<string>
  {
    match o
    case Responded(status, Fields(f)) => if IsOk(status) then Some(TextField(f)) else None
    case _ => None
  }

  /** The message the `catch` block passes to `setError`, if the `try` block throws. */
  function Reported(o: Settlement): Option<string>
  {
    match o
    case Rejected(ErrorValue(m)) => Some(m)
    case Rejected(OtherValue) => Some(RetryMessage)
    case Responded(_, Unparseable(reason)) => Some(reason)
    case Responded(status, Fields(f)) => if IsOk(status) then None else Some(ErrorFieldOr(f))
  }

  /** The state after the synchronous part of `handleSubmit`, and the request it issued. */
  datatype Submission = Submission(state: FormState, request: Option<Request>)

  function SubmitStep(s: FormState): (r: Submission)
    ensures r.request.None? <==> s.url == ""
    ensures r.request.Some? ==> r.request.value == Request(s.url, s.language, s.mode) && r.state.isLoading && r.state.error == ""
    ensures r.request.None? ==> r.state.error == EmptyUrlMessage && r.state.isLoading == s.isLoading
    ensures r.state.url == s.url && r.state.language == s.language && r.state.mode == s.mode
    ensures r.state.transcription == s.transcription
  {
    if s.url == "" then Submission(s.(error := EmptyUrlMessage), None)
    else Submission(s.(isLoading := true, error := ""), Some(Request(s.url, s.language, s.mode)))
  }

  function SettleStep(s: FormState, o: Settlement): (r: FormState)
    ensures !r.isLoading
    ensures r.url == s.url && r.language == s.language && r.mode == s.mode
    ensures Delivered(o).Some? ==> r.transcription == Delivered(o).value && r.error == s.error
    ensures Reported(o).Some? ==> r.error == Reported(o).value && r.transcription == s.transcription
  {
    s.(isLoading := false,
       transcription := if Delivered(o).Some? then Delivered(o).value else s.transcription,
       error := if Reported(o).Some? then Reported(o).value else s.error)
  }

  class TranscriberForm {
    var url: string
    var language: string
    var mode: string
    var isLoading: bool
    var transcription: string
    var error: string

    ghost function State(): FormState
      reads this
    {
      FormState(url, language, mode, isLoading, transcription, error)
    }

    constructor ()
      ensures url == "" && language == "en" && mode == "normal"
      ensures !isLoading && transcription == "" && error == ""
      ensures State() == Initial()
    {
      url, language, mode := "", "en", "normal";
      isLoading, transcription, error := false, "", "";
    }

    /** The URL input's `onChange`: no validation. */
    method SetUrl(value: string)
      modifies this
      ensures State() == old(State()).(url := value)
    {
      url := value;
    }

    /** The language select's `onChange`: no validation. */
    method SetLanguage(value: string)
      modifies this
      ensures State() == old(State()).(language := value)
    {
      language := value;
    }

    /** The mode select's `onChange`: no validation. */
    method SetMode(value: string)
      modifies this
      ensures State() == old(State()).(mode := value)
    {
      mode := value;
    }

    /**
     * `handleSubmit` up to the `await fetch`: the empty URL is rejected with
     * a fixed message and no request; any other URL, blank ones included,
     * marks the form busy, clears the error and issues one request with the
     * current field values. Nothing checks `isLoading`.
     */
    method Submit() returns (request: Option<Request>)
      modifies this
      ensures old(url) == "" ==>
                request == None && error == EmptyUrlMessage &&
                isLoading == old(isLoading) && transcription == old(transcription)
      ensures old(url) != "" ==>
                request == Some(Request(old(url), old(language), old(mode))) &&
                isLoading && error == "" && transcription == old(transcription)
      ensures url == old(url) && language == old(language) && mode == old(mode)
      ensures SubmitStep(old(State())) == Submission(State(), request)
    {
      if url == "" {
        error := EmptyUrlMessage;
        return None;
      }
      isLoading := true;
      error := "";
      request := Some(Request(url, language, mode));
    }

    /**
     * `handleSubmit` from the settled `fetch` on: the `try` block either
     * completes (setTranscription) or throws, the `catch` block sets the
     * error, and the `finally` block clears the busy flag on every path.
     */
    method Settle(o: Settlement)
      modifies this
      ensures !isLoading
      ensures url == old(url) && language == old(language) && mode == old(mode)
      ensures o.Responded? && IsOk(o.status) && o.body.Fields? ==>
                transcription == TextField(o.body.fields) && error == old(error)
      ensures o.Responded? && !IsOk(o.status) && o.body.Fields? ==>
                transcription == old(transcription) &&
                error == (if "error" in o.body.fields && o.body.fields["error"] != "" then o.body.fields["error"] else FailedMessage)
      ensures o.Responded? && o.body.Unparseable? ==>
                transcription == old(transcription) && error == o.body.reason
      ensures o.Rejected? && o.thrown.ErrorValue? ==>
                transcription == old(transcription) && error == o.thrown.message
      ensures o == Rejected(OtherValue) ==>
                transcription == old(transcription) && error == RetryMessage
      ensures State() == SettleStep(old(State()), o)
    {
      var thrown: Option<Thrown> := None;
      match o {
        case Rejected(t) =>
          thrown := Some(t);
        case Responded(status, body) =>
          if !IsOk(status) {
            match body {
              case Unparseable(reason) => thrown := Some(ErrorValue(reason));
              case Fields(errorData) => thrown := Some(ErrorValue(ErrorFieldOr(errorData)));
            }
          } else {
            match body {
              case Unparseable(reason) => thrown := Some(ErrorValue(reason));
              case Fields(data) => transcription := TextField(data);
            }
          }
      }
      if thrown.Some? {
        error := match thrown.value
          case ErrorValue(message) => message
          case OtherValue => RetryMessage;
      }
      isLoading := false;
    }
  }

  // ---------------------------------------------------------------------
  // Properties of single steps

  /** Exactly one of the two lifecycle outputs is written by a settlement. */
  lemma DeliveredOrReported(o: Settlement)
    ensures Delivered(o).Some? <==> Reported(o).None?
  {
  }

  /** Settling does not depend on the busy flag: no guard rejects a settlement, whatever its timing. */
  lemma SettleIgnoresLoading(s: FormState, o: Settlement, busy: bool)
    ensures SettleStep(s.(isLoading := busy), o) == SettleStep(s, o)
  {
  }

  /** Submitting while busy issues a second request just like the first. */
  lemma SubmitIgnoresLoading(s: FormState)
    requires s.url != ""
    ensures var first := SubmitStep(s);
            first.state.isLoading && SubmitStep(first.state) == first
  {
  }

  /**
   * Of two settlements the later one decides every cell it writes: the busy
   * flag, and either the transcription or the error; the cell it does not
   * write keeps what the earlier one left.
   */
  lemma LaterSettleWins(s: FormState, o1: Settlement, o2: Settlement)
    ensures var t := SettleStep(SettleStep(s, o1), o2);
            !t.isLoading &&
            (Delivered(o2).Some? ==> t.transcription == Delivered(o2).value && t.error == SettleStep(s, o1).error) &&
            (Reported(o2).Some? ==> t.error == Reported(o2).value && t.transcription == SettleStep(s, o1).transcription)
  {
  }

  /**
   * Two overlapping submissions where the first fails and the second
   * succeeds, settling in that order: the form ends idle, showing the new
   * transcription and the stale error side by side.
   */
  lemma OverlapShowsResultAndError(s: FormState, message: string, text: string)
    requires s.url != "" && message != ""
    ensures var busy := SubmitStep(SubmitStep(s).state).state;
            var failed := SettleStep(busy, Responded(500, Fields(map["error" := message])));
            var done := SettleStep(failed, Responded(200, Fields(map["text" := text])));
            !failed.isLoading && !done.isLoading && done.transcription == text && done.error == message
  {
  }

  // ---------------------------------------------------------------------
  // Arbitrary sequences of user actions and settlements

  datatype Event =
    | EditUrl(url: string)
    | EditLanguage(language: string)
    | EditMode(mode: string)
    | Click
    | Arrive(outcome: Settlement)

  function Step(s: FormState, e: Event): Submission
  {
    match e
    case EditUrl(u) => Submission(s.(url := u), None)
    case EditLanguage(l) => Submission(s.(language := l), None)
    case EditMode(m) => Submission(s.(mode := m), None)
    case Click => SubmitStep(s)
    case Arrive(o) => Submission(SettleStep(s, o), None)
  }

  /** The state after `evs`, applied in order from `s`. */
  function Run(s: FormState, evs: seq<Event>): FormState
    decreases |evs|
  {
    if evs == [] then s else Step(Run(s, evs[..|evs| - 1]), evs[|evs| - 1]).state
  }

  /** The requests issued while running `evs` from `s`, in order. */
  function Requests(s: FormState, evs: seq<Event>): seq<Request>
    decreases |evs|
  {
    if evs == [] then []
    else
      var issued := Step(Run(s, evs[..|evs| - 1]), evs[|evs| - 1]).request;
      Requests(s, evs[..|evs| - 1]) + (if issued.Some? then [issued.value] else [])
  }

  function Clicks(evs: seq<Event>): nat
  {
    if evs == [] then 0 else Clicks(evs[..|evs| - 1]) + (if evs[|evs| - 1].Click? then 1 else 0)
  }

  /** The text of the latest delivering settlement in `evs`, or `d` if there is none. */
  function LastDelivered(d: string, evs: seq<Event>): string
  {
    if evs == [] then d
    else
      var e := evs[|evs| - 1];
      if e.Arrive? && Delivered(e.outcome).Some? then Delivered(e.outcome).value
      else LastDelivered(d, evs[..|evs| - 1])
  }

  /** Every message some settlement in `evs` reports. */
  function ReportedIn(evs: seq<Event>): set<string>
  {
    if evs == [] then {}
    else
      var e := evs[|evs| - 1];
      ReportedIn(evs[..|evs| - 1]) + (if e.Arrive? && Reported(e.outcome).Some? then {Reported(e.outcome).value} else {})
  }

  /**
   * Last known good persists: the transcription shown is the one the latest
   * delivering settlement carried; failures, clicks and edits never touch it.
   */
  lemma {:induction false} TranscriptionIsLastDelivered(s: FormState, evs: seq<Event>)
    ensures Run(s, evs).transcription == LastDelivered(s.transcription, evs)
    decreases |evs|
  {
    if evs != [] {
      TranscriptionIsLastDelivered(s, evs[..|evs| - 1]);
    }
  }

  /**
   * The error shown is always the starting one, empty, the validation
   * message, or a message some settlement reported: nothing else ever
   * reaches the error cell.
   */
  lemma {:induction false} ErrorProvenance(s: FormState, evs: seq<Event>)
    ensures var e := Run(s, evs).error;
            e == s.error || e == "" || e == EmptyUrlMessage || e in ReportedIn(evs)
    decreases |evs|
  {
    if evs != [] {
      ErrorProvenance(s, evs[..|evs| - 1]);
    }
  }

  /** Every request carries a non-empty URL, and there is at most one per click. */
  lemma {:induction false} RequestsFollowClicks(s: FormState, evs: seq<Event>)
    ensures forall r :: r in Requests(s, evs) ==> r.url != ""
    ensures |Requests(s, evs)| <= Clicks(evs)
    decreases |evs|
  {
    if evs != [] {
      RequestsFollowClicks(s, evs[..|evs| - 1]);
    }
  }

  /** From the initial state the form is busy only after some request was issued. */
  lemma {:induction false} BusyOnlyAfterRequest(evs: seq<Event>)
    ensures Run(Initial(), evs).isLoading ==> |Requests(Initial(), evs)| > 0
    decreases |evs|
  {
    if evs != [] {
      BusyOnlyAfterRequest(evs[..|evs| - 1]);
    }
  }

  /**
   * The busy flag is advisory: after two requests and one settlement the
   * form is idle although one request is still outstanding.
   */
  lemma IdleWhileRequestOutstanding(s: FormState, o: Settlement)
    requires s.url != ""
    ensures var evs := [Click, Click, Arrive(o)];
            |Requests(s, evs)| == 2 && !Run(s, evs).isLoading
  {
    var evs := [Click, Click, Arrive(o)];
    var r := Request(s.url, s.language, s.mode);
    assert evs[..2] == [Click, Click] && evs[..2][..1] == [Click] && [Click][..0] == [];
    assert Run(s, [Click]) == SubmitStep(s).state;
    assert Requests(s, [Click]) == [r];
    assert Run(s, [Click, Click]) == SubmitStep(SubmitStep(s).state).state;
    assert Requests(s, [Click, Click]) == [r, r];
  }
}
