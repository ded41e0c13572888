/**
 * The backend pipeline of `TranscriptionService.TranscribeVideo`:
 * download the video, extract its audio, transcribe the audio, post-process
 * the text. The three collaborators are given as total functions; every call
 * to one of them and every file removal is recorded in a trace, in order.
 */
module TranscriptionService {
  import opened Results

  const DownloadFailure := "failed to download video: "
  const ExtractFailure := "failed to extract audio: "
  const TranscribeFailure := "failed to transcribe audio: "
  const SummaryPrefix := "Summary: "
  const AudioExtension := ".wav"

  /** The fixed text the placeholder `transcribeAudio` returns. */
  const MockTranscription := "This is a mock transcription. The actual transcription will be implemented using Whisper API or similar service."

  /** What the pipeline asks of the outside world, in the order it asks. */
  datatype Action =
    | Download(url: string)
    | Extract(videoPath: string, audioPath: string)
    | Transcribe(audioPath: string, language: string)
    | Remove(path: string)

  /**
   * The collaborators of the pipeline. `downloadVideo` yields the local video
   * path, `extractAudio` yields `Some(message)` when ffmpeg fails, and
   * `transcribeAudio` yields the raw text.
   */
  datatype Collaborators = Collaborators(
    downloadVideo: string -> Result<string, string>,
    extractAudio: (string, string) -> Option<string>,
    transcribeAudio: (string, string) -> Result<string, string>)

  /** The placeholder transcriber: it ignores both arguments. */
  function MockTranscribeAudio(audioPath: string, language: string): (r: Result<string, string>)
    ensures r.Ok? && r.value == MockTranscription
  {
    Ok(MockTranscription)
  }

  /** The collaborators as the repository wires them: the transcriber is the placeholder. */
  function WithMockTranscriber(downloadVideo: string -> Result<string, string>,
                               extractAudio: (string, string) -> Option<string>): Collaborators
  {
    Collaborators(downloadVideo, extractAudio, MockTranscribeAudio)
  }

  function AudioPath(videoPath: string): string
  {
    videoPath + AudioExtension
  }

  /** Post-processing by mode: only "summary" changes the text. */
  function ProcessTranscription(text: string, mode: string): (r: string)
    ensures IsSuffix(text, r)
    ensures r != text ==> mode == "summary"
  {
    match mode
    case "detailed" => text
    case "summary" => SummaryPrefix + text
    case _ => text
  }

  predicate StartsWith(p: string, s: string)
  {
    |p| <= |s| && s[..|p|] == p
  }

  predicate IsSuffix(s: string, t: string)
  {
    |s| <= |t| && t[|t| - |s|..] == s
  }

  lemma SummaryAddsPrefix(text: string)
    ensures ProcessTranscription(text, "summary") == "Summary: " + text
  {
  }

  lemma OtherModesKeepText(text: string, mode: string)
    requires mode != "summary"
    ensures ProcessTranscription(text, mode) == text
  {
  }

  /** In every mode the raw text survives unaltered at the end of the result. */
  lemma ProcessKeepsTextAsSuffix(text: string, mode: string)
    ensures IsSuffix(text, ProcessTranscription(text, mode))
    ensures |ProcessTranscription(text, mode)| == |text| + (if mode == "summary" then |SummaryPrefix| else 0)
  {
  }

  /** Post-processing loses nothing: the raw text can be read back from the result. */
  lemma {:induction false} ProcessIsInjective(text1: string, text2: string, mode: string)
    requires ProcessTranscription(text1, mode) == ProcessTranscription(text2, mode)
    ensures text1 == text2
  {
    if mode == "summary" {
      var r := ProcessTranscription(text1, mode);
      assert text1 == r[|SummaryPrefix|..];
      assert text2 == r[|SummaryPrefix|..];
    }
  }

  /** The paths of the files the trace removes, in removal order. */
  function Removed(trace: seq<Action>): seq<string>
  {
    if trace == [] then []
    else
      var rest := Removed(trace[1..]);
      if trace[0].Remove? then [trace[0].path] + rest else rest
  }

  /** The paths of the files the successful steps of the trace created, in creation order. */
  function Created(env: Collaborators, trace: seq<Action>): seq<string>
  {
    if trace == [] then []
    else
      var rest := Created(env, trace[1..]);
      match trace[0]
      case Download(url) =>
        if env.downloadVideo(url).Ok? then [env.downloadVideo(url).value] + rest else rest
      case Extract(v, a) =>
        if env.extractAudio(v, a).None? then [a] + rest else rest
      case _ => rest
  }

  function Reversed(s: seq<string>): seq<string>
  {
    if s == [] then [] else Reversed(s[1..]) + [s[0]]
  }

  /**
   * Runs the pipeline. `err` is Go's error value (None for nil) and `trace`
   * lists the collaborator calls followed by the deferred removals, which
   * run last in, first out when the function returns.
   */
  method TranscribeVideo(env: Collaborators, url: string, language: string, mode: string)
    returns (text: string, err: Option<string>, trace: seq<Action>)
    ensures err.Some? ==> text == ""
    // a download failure: nothing else runs and nothing is removed
    ensures env.downloadVideo(url).Err? ==>
              err == Some(DownloadFailure + env.downloadVideo(url).error) && trace == [Download(url)]
    // an extraction failure: only the video is removed
    ensures env.downloadVideo(url).Ok? && env.extractAudio(env.downloadVideo(url).value, AudioPath(env.downloadVideo(url).value)).Some? ==>
              var v := env.downloadVideo(url).value;
              err == Some(ExtractFailure + env.extractAudio(v, AudioPath(v)).value) &&
              trace == [Download(url), Extract(v, AudioPath(v)), Remove(v)]
    // the transcriber ran: the audio is removed, then the video
    ensures env.downloadVideo(url).Ok? && env.extractAudio(env.downloadVideo(url).value, AudioPath(env.downloadVideo(url).value)).None? ==>
              var v := env.downloadVideo(url).value;
              var t := env.transcribeAudio(AudioPath(v), language);
              trace == [Download(url), Extract(v, AudioPath(v)), Transcribe(AudioPath(v), language), Remove(AudioPath(v)), Remove(v)] &&
              (t.Err? ==> err == Some(TranscribeFailure + t.error)) &&
              (t.Ok? ==> err == None && text == ProcessTranscription(t.value, mode))
    // on every exit path each file a step created is removed once, newest first
    ensures Removed(trace) == Reversed(Created(env, trace))
  {
    var deferred: seq<Action> := [];   // pending removals, most recent first
    trace := [];

    trace := trace + [Download(url)];
    var video := env.downloadVideo(url);
    if video.Err? {
      text, err := "", Some(DownloadFailure + video.error);
      FlushDeferred(env, trace, deferred);
      trace := trace + deferred;
      return;
    }
    var videoPath := video.value;
    deferred := [Remove(videoPath)] + deferred;

    var audioPath := videoPath + AudioExtension;
    CreatedAppend(env, trace, [Extract(videoPath, audioPath)]);
    RemovedAppend(trace, [Extract(videoPath, audioPath)]);
    trace := trace + [Extract(videoPath, audioPath)];
    var extracted := env.extractAudio(videoPath, audioPath);
    if extracted.Some? {
      text, err := "", Some(ExtractFailure + extracted.value);
      FlushDeferred(env, trace, deferred);
      trace := trace + deferred;
      return;
    }
    assert Created(env, [Extract(videoPath, audioPath)]) == [audioPath];
    assert Created(env, trace) == [videoPath, audioPath];
    assert [videoPath, audioPath][1..] == [audioPath];
    assert Reversed([audioPath]) == [audioPath] by {
      assert Reversed([audioPath]) == Reversed([]) + [audioPath];
    }
    assert Reversed(Created(env, trace)) == [audioPath, videoPath];
    deferred := [Remove(audioPath)] + deferred;

    CreatedAppend(env, trace, [Transcribe(audioPath, language)]);
    RemovedAppend(trace, [Transcribe(audioPath, language)]);
    trace := trace + [Transcribe(audioPath, language)];
    var raw := env.transcribeAudio(audioPath, language);
    if raw.Err? {
      text, err := "", Some(TranscribeFailure + raw.error);
      FlushDeferred(env, trace, deferred);
      trace := trace + deferred;
      return;
    }

    text, err := ProcessTranscription(raw.value, mode), None;
    FlushDeferred(env, trace, deferred);
    trace := trace + deferred;
  }

  lemma {:induction false} RemovedAppend(a: seq<Action>, b: seq<Action>)
    ensures Removed(a + b) == Removed(a) + Removed(b)
  {
    if a != [] {
      assert (a + b)[1..] == a[1..] + b;
      RemovedAppend(a[1..], b);
    } else {
      assert a + b == b;
    }
  }

  lemma {:induction false} CreatedAppend(env: Collaborators, a: seq<Action>, b: seq<Action>)
    ensures Created(env, a + b) == Created(env, a) + Created(env, b)
  {
    if a != [] {
      assert (a + b)[1..] == a[1..] + b;
      CreatedAppend(env, a[1..], b);
    } else {
      assert a + b == b;
    }
  }

  /**
   * Returning runs the pending removals: when they are exactly the created
   * files newest first, and nothing was removed before, the whole trace
   * removes every created file in reverse creation order.
   */
  lemma FlushDeferred(env: Collaborators, trace: seq<Action>, deferred: seq<Action>)
    requires Removed(trace) == [] && Created(env, deferred) == []
    requires Removed(deferred) == Reversed(Created(env, trace))
    ensures Removed(trace + deferred) == Reversed(Created(env, trace + deferred))
  {
    RemovedAppend(trace, deferred);
    CreatedAppend(env, trace, deferred);
    assert Created(env, trace + deferred) == Created(env, trace);
  }

  /**
   * The pipeline with the repository's placeholder transcriber: the
   * transcription step never fails, and every success carries the fixed
   * mock sentence, post-processed by mode.
   */
  method TranscribeVideoWithMock(downloadVideo: string -> Result<string, string>,
                                 extractAudio: (string, string) -> Option<string>,
                                 url: string, language: string, mode: string)
    returns (text: string, err: Option<string>)
    ensures err.None? <==> downloadVideo(url).Ok? && extractAudio(downloadVideo(url).value, AudioPath(downloadVideo(url).value)).None?
    ensures err.None? ==> text == ProcessTranscription(MockTranscription, mode)
    ensures err.Some? ==> text == "" && (StartsWith(DownloadFailure, err.value) || StartsWith(ExtractFailure, err.value))
  {
    var trace;
    text, err, trace := TranscribeVideo(WithMockTranscriber(downloadVideo, extractAudio), url, language, mode);
  }
}
