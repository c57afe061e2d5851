/** Runs of the capture lifecycle: any sequence of button clicks, recorder chunks
    and stream terminations, taken from the moment the component mounts, and what
    holds after it. Because the chunk list is never emptied, every download offers
    everything recorded since the component was created. */
module Sessions {
  import opened Media
  import opened Lifecycle

  /** The events the component reacts to. */
  datatype Event =
    | Click(outcome: CaptureOutcome)   // the start/stop button; `outcome` answers a start
    | Data(event: BlobEvent)           // a recorder's `dataavailable`
    | Inactive(stream: MediaStream)    // a capture stream's `inactive`

  function Step(s: State, ev: Event): State
  {
    match ev
    case Click(outcome) => ButtonClick(s, outcome)
    case Data(e) => DataAvailable(s, e)
    case Inactive(stream) => StreamInactive(s, stream)
  }

  /** The state after the events of `evs`, in order, starting from `s`. */
  function Run(s: State, evs: seq<Event>): State
    decreases |evs|
  {
    if evs == [] then s else Step(Run(s, evs[..|evs| - 1]), evs[|evs| - 1])
  }

  /** The recorder events of `evs`, in order. */
  function DataEvents(evs: seq<Event>): seq<BlobEvent>
    decreases |evs|
  {
    if evs == [] then []
    else
      var last := evs[|evs| - 1];
      DataEvents(evs[..|evs| - 1]) + (if last.Data? then [last.event] else [])
  }

  lemma {:induction false} StepKeepsInv(s: State, ev: Event)
    requires Inv(s)
    ensures Inv(Step(s, ev))
  {
    match ev
    case Click(outcome) => ButtonClickKeepsInv(s, outcome);
    case Data(e) => DataAvailableKeepsInv(s, e);
    case Inactive(stream) => StreamInactiveKeepsInv(s, stream);
  }

  lemma RunExtend(s: State, evs: seq<Event>, ev: Event)
    ensures Run(s, evs + [ev]) == Step(Run(s, evs), ev)
  {
    assert (evs + [ev])[..|evs|] == evs;
  }

  /** Every state reached from a consistent one is consistent. */
  lemma {:induction false} RunKeepsInv(s: State, evs: seq<Event>)
    requires Inv(s)
    ensures Inv(Run(s, evs))
    decreases |evs|
  {
    if evs != [] {
      RunKeepsInv(s, evs[..|evs| - 1]);
      StepKeepsInv(Run(s, evs[..|evs| - 1]), evs[|evs| - 1]);
    }
  }

  /** The chunk list only grows: after any run it is the old list followed by the
      positive-size chunks of the run, in arrival order, whatever sessions were
      started or stopped in between. */
  lemma {:induction false} RunChunks(s: State, evs: seq<Event>)
    ensures Run(s, evs).chunks == s.chunks + NonEmptyChunks(DataEvents(evs))
    decreases |evs|
  {
    if evs != [] {
      var n := |evs| - 1;
      var before := Run(s, evs[..n]);
      RunChunks(s, evs[..n]);
      var ev := evs[n];
      if ev.Data? {
        var ds := DataEvents(evs[..n]) + [ev.event];
        assert DataEvents(evs) == ds;
        assert ds[..|ds| - 1] == DataEvents(evs[..n]);
      } else {
        assert DataEvents(evs) == DataEvents(evs[..n]);
      }
    }
  }

  /** The artifact a stop creates after any run from mount holds, in order, the
      bytes of every recorder chunk received since mount, across all sessions. */
  lemma ArtifactHoldsEveryChunk(urls: UrlStore, evs: seq<Event>)
    ensures var t := Stop(Run(Initial(urls), evs));
      t.objectUrl in t.urls.entries &&
      t.urls.entries[t.objectUrl] == Blob(Payloads(DataEvents(evs)), RecordingType)
  {
    RunChunks(Initial(urls), evs);
    assert Run(Initial(urls), evs).chunks == NonEmptyChunks(DataEvents(evs));
    NonEmptyChunksKeepBytes(DataEvents(evs));
  }

  /** After any run from mount: at most one stream is held, exactly while
      recording, and it is one the recorder was attached to; the download URL,
      when shown, is live and holds the chunks received up to some moment. */
  lemma Reachable(urls: UrlStore, evs: seq<Event>)
    requires urls.Valid()
    ensures var s := Run(Initial(urls), evs);
      (s.recording <==> s.stream.Some?) &&
      (s.stream.Some? ==> s.stream.value in s.attached) &&
      (s.objectUrl != "" ==> HoldsChunkPrefix(s.urls, s.objectUrl, s.chunks))
  {
    InitialInv(urls);
    RunKeepsInv(Initial(urls), evs);
  }

  /** A start leaves no download reference: the URL is cleared and the previous
      one is no longer live; no URL is created while starting. */
  lemma StartLeavesNoDownload(s: State, outcome: CaptureOutcome)
    requires Inv(s)
    ensures var t := Start(s, outcome);
      t.objectUrl == "" && s.objectUrl !in t.urls.entries &&
      t.urls.entries.Keys <= s.urls.entries.Keys
  {
  }

  /** `stopCapture` has no guard: run twice (by the button and then by the stream's
      `inactive` listener), it mints a second URL, and the first stays live although
      nothing refers to it any more. */
  lemma RepeatedStopLeavesUrlLive(s: State)
    requires Inv(s)
    ensures var t := Stop(s); var u := Stop(t);
      t.objectUrl != u.objectUrl && t.objectUrl in u.urls.entries &&
      u.urls.entries.Keys == s.urls.entries.Keys + {t.objectUrl, u.objectUrl} &&
      u.urls.entries[u.objectUrl] == u.urls.entries[t.objectUrl]
  {
  }

  /** After a click the label reads "Stop Capture" exactly when the click found no
      recording running and its capture request was granted: a click while recording
      always stops, and never starts a second session. */
  lemma ClickToggles(s: State, outcome: CaptureOutcome)
    requires Inv(s)
    ensures var t := ButtonClick(s, outcome);
      ButtonLabel(t) == StopLabel <==> !s.recording && outcome.Granted?
  {
  }

  /** A capture request the user refuses: not recording, the permission message,
      no download; a later granted start clears the message. */
  lemma PermissionDeniedScenario(s: State, text: string, stream: MediaStream)
    requires Inv(s) && !s.recording
    ensures var t := ButtonClick(s, Rejected(CaptureError("NotAllowedError", text)));
      !t.recording && t.errMsg == PermissionDeniedMessage && t.objectUrl == "" &&
      t.urls.entries.Keys <= s.urls.entries.Keys &&
      ButtonClick(t, Granted(stream)).errMsg == "" && ButtonClick(t, Granted(stream)).recording
  {
  }

  /** A granted capture whose recorder emits chunks of 10, 0 and 20 bytes before the
      stream ends on its own: the artifact holds the 10 and the 20 bytes, 30 in all,
      and nothing is recording. */
  lemma ThreeChunkScenario(urls: UrlStore, stream: MediaStream, b1: seq<byte>, b2: seq<byte>, mimeType: string)
    requires |b1| == 10 && |b2| == 20
    ensures var evs := [
        Click(Granted(stream)),
        Data(BlobEvent(Some(Blob(b1, mimeType)))),
        Data(BlobEvent(Some(Blob([], mimeType)))),
        Data(BlobEvent(Some(Blob(b2, mimeType)))),
        Inactive(stream)];
      var t := Run(Initial(urls), evs);
      !t.recording && t.objectUrl in t.urls.entries &&
      t.urls.entries[t.objectUrl] == Blob(b1 + b2, RecordingType) &&
      t.urls.entries[t.objectUrl].Size() == 30
  {
    var c1, c2 := Blob(b1, mimeType), Blob(b2, mimeType);
    var evs := [
        Click(Granted(stream)),
        Data(BlobEvent(Some(c1))),
        Data(BlobEvent(Some(Blob([], mimeType)))),
        Data(BlobEvent(Some(c2))),
        Inactive(stream)];
    var init := Initial(urls);
    RunExtend(init, [], evs[0]);
    assert [] + [evs[0]] == evs[..1];
    RunExtend(init, evs[..1], evs[1]);
    assert evs[..1] + [evs[1]] == evs[..2];
    RunExtend(init, evs[..2], evs[2]);
    assert evs[..2] + [evs[2]] == evs[..3];
    RunExtend(init, evs[..3], evs[3]);
    assert evs[..3] + [evs[3]] == evs[..4];
    RunExtend(init, evs[..4], evs[4]);
    assert evs[..4] + [evs[4]] == evs;
    var s4 := Step(Step(Step(Step(init, evs[0]), evs[1]), evs[2]), evs[3]);
    assert Run(init, evs) == Step(s4, evs[4]);
    assert s4.chunks == [c1, c2] && stream in s4.attached;
    assert [c1, c2][..1] == [c1] && [c1][..0] == [];
    assert Concat([c1]) == b1;
    assert Concat([c1, c2]) == Concat([c1]) + b2;
  }
}
