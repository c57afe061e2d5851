/** The capture lifecycle controller of the `App` component, as values: the
    component's state, one transition per event, the error-message lookup of
    `handleError`, and the invariant every transition keeps. The class in module
    Controller performs these transitions on its fields. */
module Lifecycle {
  import opened Media

  const PermissionDeniedMessage: string :=
    "No Permissions to Record your " + "User Video and Audio " + "or you canceled the Recording."
  const UnsupportedMediaMessage: string :=
    "Your Browser does not support " + "User Video and Audio Recording yet."
  /** Shown when `navigator.mediaDevices.getDisplayMedia` is missing. The entity is
      part of a plain string, not of markup, so it is shown as written. */
  const NoScreenCaptureMessage: string :=
    "&#128165; Your Browser does not support Screen Recording yet."
  const ErrorPrefix: string := " Error: "
  const RecordingType: string := "video/webm"
  const StartLabel: string := "Start Capture"
  const StopLabel: string := "Stop Capture"

  /** A rejection of the capture request: its `name` and its string form `text`
      (what `${err}` yields). */
  datatype CaptureError = CaptureError(name: string, text: string)

  /** The message `handleError` shows for `err`. */
  function ErrorMessage(err: CaptureError): (msg: string)
    ensures msg != ""
  {
    if err.name == "NotAllowedError" then PermissionDeniedMessage
    else if err.name == "NotSupportedError" then UnsupportedMediaMessage
    else ErrorPrefix + err.text
  }

  /** Each fixed message identifies its error name, and every other name shows the
      error's own text behind the prefix. */
  lemma ErrorMessageByName(err: CaptureError)
    ensures ErrorMessage(err) == PermissionDeniedMessage <==> err.name == "NotAllowedError"
    ensures ErrorMessage(err) == UnsupportedMediaMessage <==> err.name == "NotSupportedError"
    ensures err.name != "NotAllowedError" && err.name != "NotSupportedError" ==>
      ErrorMessage(err) == ErrorPrefix + err.text
  {
    assert PermissionDeniedMessage[0] == 'N' && UnsupportedMediaMessage[0] == 'Y';
    if err.name != "NotAllowedError" && err.name != "NotSupportedError" {
      assert ErrorMessage(err)[0] == ' ';
    }
  }

  /** The state the component keeps: `isRecordingRunning`, `currentVideo`,
      `fullChunkRecordings`, `fullObjectURL`, `errMsg`; the page's object-URL
      store; and the streams that received a recorder and an `inactive` listener
      (listeners are never removed, since the effect's cleanup does nothing). */
  datatype State = State(
    recording: bool,
    stream: Option<MediaStream>,
    chunks: seq<Blob>,
    objectUrl: string,
    errMsg: string,
    urls: UrlStore,
    attached: seq<MediaStream>)

  /** The state when the component mounts. */
  function Initial(urls: UrlStore): State
  {
    State(false, None, [], "", "", urls, [])
  }

  /** What the awaited `getDisplayMedia` call turns out to be. */
  datatype CaptureOutcome =
    | Unavailable                     // `navigator?.mediaDevices?.getDisplayMedia` is missing
    | Granted(stream: MediaStream)    // the promise resolves with a stream
    | Rejected(error: CaptureError)   // the promise rejects

  /** The synchronous start of `startCapture`: forget the stream and the message,
      revoke the previous download URL if there is one, clear the URL. */
  function Reset(s: State): (r: State)
    ensures r.stream.None? && r.errMsg == "" && r.objectUrl == ""
    ensures s.urls.Valid() ==> r.urls.Valid() && r.urls.entries == s.urls.entries - {s.objectUrl}
    ensures r.recording == s.recording && r.chunks == s.chunks && r.attached == s.attached
  {
    assert s.urls.Valid() ==> "" !in s.urls.entries by {
      if s.urls.Valid() { s.urls.EmptyNeverLive(); }
    }
    var urls := if s.objectUrl != "" then s.urls.RevokeObjectUrl(s.objectUrl) else s.urls;
    s.(stream := None, errMsg := "", urls := urls, objectUrl := "")
  }

  /** `startCapture` with the capture request resolved to `outcome`. A granted
      stream is stored and, in the same step, receives the recorder and the
      `inactive` listener the component's effect attaches. */
  function Start(s: State, outcome: CaptureOutcome): (r: State)
    ensures r.recording <==> outcome.Granted?
    ensures r.stream == (if outcome.Granted? then Some(outcome.stream) else None)
    ensures r.errMsg == match outcome
      case Unavailable => NoScreenCaptureMessage
      case Granted(_) => ""
      case Rejected(e) => ErrorMessage(e)
    ensures r.objectUrl == "" && r.chunks == s.chunks
    ensures s.urls.Valid() ==> r.urls.Valid() && r.urls.entries == s.urls.entries - {s.objectUrl}
    ensures r.attached == s.attached + (if outcome.Granted? then [outcome.stream] else [])
  {
    var r := Reset(s);
    match outcome
    case Unavailable => r.(recording := false, errMsg := NoScreenCaptureMessage)
    case Granted(stream) => r.(stream := Some(stream), recording := true, attached := r.attached + [stream])
    case Rejected(e) => r.(recording := false, errMsg := ErrorMessage(e))
  }

  /** The `dataavailable` listener: a chunk of positive size goes to the end of the
      chunk list; any other event leaves the state as it was. */
  function DataAvailable(s: State, e: BlobEvent): (r: State)
    ensures s.chunks <= r.chunks
    ensures |r.chunks| == |s.chunks| + (if HasContent(e) then 1 else 0)
    ensures HasContent(e) ==> r.chunks[|s.chunks|] == e.data.value
    ensures r.(chunks := s.chunks) == s
  {
    if HasContent(e) then s.(chunks := s.chunks + [e.data.value]) else s
  }

  /** `stopCapture`: not recording, no stream, and the download URL refers to a
      new `video/webm` blob holding every chunk collected so far. Nothing checks
      whether a recording was running, and the previous URL is not revoked. */
  function Stop(s: State): (r: State)
    ensures !r.recording && r.stream.None?
    ensures r.objectUrl != ""
    ensures r.urls.entries == s.urls.entries[r.objectUrl := Blob(Concat(s.chunks), RecordingType)]
    ensures s.urls.Valid() ==> r.objectUrl !in s.urls.entries && r.urls.Valid()
    ensures r.chunks == s.chunks && r.errMsg == s.errMsg && r.attached == s.attached
  {
    var (urls, url) := s.urls.CreateObjectUrl(NewBlob(s.chunks, RecordingType));
    s.(recording := false, stream := None, urls := urls, objectUrl := url)
  }

  /** A stream fires `inactive`: the listener, if this stream has one, runs
      `stopCapture`. */
  function StreamInactive(s: State, stream: MediaStream): (r: State)
    ensures stream in s.attached ==> r == Stop(s)
    ensures stream !in s.attached ==> r == s
  {
    if stream in s.attached then Stop(s) else s
  }

  /** The button's `onClick`: stop while recording, start otherwise. */
  function ButtonClick(s: State, outcome: CaptureOutcome): (r: State)
    ensures s.recording ==> r == Stop(s)
    ensures !s.recording ==> r == Start(s, outcome)
  {
    if s.recording then Stop(s) else Start(s, outcome)
  }

  /** The button's label. */
  function ButtonLabel(s: State): (caption: string)
    ensures caption == StopLabel <==> s.recording
    ensures caption == StartLabel <==> !s.recording
  {
    if s.recording then StopLabel else StartLabel
  }

  /** The URL at `url` holds the first `k` chunks, for some `k`, as `video/webm`. */
  ghost predicate HoldsChunkPrefix(urls: UrlStore, url: string, chunks: seq<Blob>)
  {
    url in urls.entries && urls.entries[url].mimeType == RecordingType &&
    exists k :: 0 <= k <= |chunks| && urls.entries[url].bytes == Concat(chunks[..k])
  }

  /** What holds between events: the store is well formed; the component records
      exactly when it holds a stream, which has its recorder attached; and a shown
      download URL is live and holds the chunks received up to some moment. */
  ghost predicate Inv(s: State)
  {
    s.urls.Valid() &&
    (s.recording <==> s.stream.Some?) &&
    (s.stream.Some? ==> s.stream.value in s.attached) &&
    (s.objectUrl != "" ==> HoldsChunkPrefix(s.urls, s.objectUrl, s.chunks))
  }

  lemma InitialInv(urls: UrlStore)
    requires urls.Valid()
    ensures Inv(Initial(urls))
  {
  }

  lemma StartKeepsInv(s: State, outcome: CaptureOutcome)
    requires Inv(s)
    ensures Inv(Start(s, outcome))
  {
  }

  lemma {:induction false} DataAvailableKeepsInv(s: State, e: BlobEvent)
    requires Inv(s)
    ensures Inv(DataAvailable(s, e))
  {
    var r := DataAvailable(s, e);
    if s.objectUrl != "" {
      var k :| 0 <= k <= |s.chunks| && s.urls.entries[s.objectUrl].bytes == Concat(s.chunks[..k]);
      assert r.chunks[..k] == s.chunks[..k];
    }
  }

  lemma {:induction false} StopKeepsInv(s: State)
    requires Inv(s)
    ensures Inv(Stop(s))
  {
    var r := Stop(s);
    assert r.chunks[..|r.chunks|] == s.chunks;
  }

  lemma StreamInactiveKeepsInv(s: State, stream: MediaStream)
    requires Inv(s)
    ensures Inv(StreamInactive(s, stream))
  {
    if stream in s.attached { StopKeepsInv(s); }
  }

  lemma ButtonClickKeepsInv(s: State, outcome: CaptureOutcome)
    requires Inv(s)
    ensures Inv(ButtonClick(s, outcome))
  {
    if s.recording { StopKeepsInv(s); } else { StartKeepsInv(s, outcome); }
  }
}
