/** The `App` component's capture controller as an object: its fields are the
    component's state, and each method is one handler, changing the fields step by
    step as the handler does. Each method's result is pinned to the transition of
    module Lifecycle that specifies it. */
module Controller {
  import opened Media
  import opened Lifecycle

  class CaptureController {
    var recording: bool               // isRecordingRunning
    var currentVideo: Option<MediaStream>
    var chunks: seq<Blob>             // fullChunkRecordings
    var objectUrl: string             // fullObjectURL
    var errMsg: string
    var urls: UrlStore                // the page's object-URL store
    var attached: seq<MediaStream>    // streams given a recorder and an `inactive` listener

    /** The fields as a Lifecycle state. */
    function Snapshot(): State
      reads this
    {
      State(recording, currentVideo, chunks, objectUrl, errMsg, urls, attached)
    }

    ghost predicate Valid()
      reads this
    {
      Inv(Snapshot())
    }

    /** Mounting the component: the initial values of its state hooks. */
    constructor (urls: UrlStore)
      requires urls.Valid()
      ensures Valid() && Snapshot() == Initial(urls)
    {
      recording := false;
      currentVideo := None;
      chunks := [];
      objectUrl := "";
      errMsg := "";
      this.urls := urls;
      attached := [];
      new;
      InitialInv(urls);
    }

    /** `handleError`: the message for `err` replaces the previous one. */
    method HandleError(err: CaptureError)
      modifies this
      ensures Snapshot() == old(Snapshot()).(errMsg := ErrorMessage(err))
    {
      errMsg := ErrorMessage(err);
    }

    /** `startCapture`, with the awaited capture request resolved to `outcome`. */
    method StartCapture(outcome: CaptureOutcome)
      requires Valid()
      modifies this
      ensures Valid() && Snapshot() == Start(old(Snapshot()), outcome)
    {
      currentVideo := None;
      errMsg := "";
      if objectUrl != "" {
        urls := urls.RevokeObjectUrl(objectUrl);
      }
      objectUrl := "";

      match outcome {
        case Unavailable =>
          recording := false;
          errMsg := NoScreenCaptureMessage;
        case Granted(stream) =>
          currentVideo := Some(stream);
          recording := true;
          // the effect that runs when `currentVideo` changes
          attached := attached + [stream];
        case Rejected(e) =>
          recording := false;
          HandleError(e);
      }
      StartKeepsInv(old(Snapshot()), outcome);
    }

    /** The recorder's `dataavailable` listener. */
    method OnDataAvailable(e: BlobEvent)
      requires Valid()
      modifies this
      ensures Valid() && Snapshot() == DataAvailable(old(Snapshot()), e)
    {
      if e.data.Some? && e.data.value.Size() > 0 {
        chunks := chunks + [e.data.value];
      }
      DataAvailableKeepsInv(old(Snapshot()), e);
    }

    /** `stopCapture`: stop every track of the current stream, publish the chunks as
        one `video/webm` blob and show its URL. */
    method StopCapture()
      requires Valid()
      modifies this, TracksOf(currentVideo)
      ensures Valid() && Snapshot() == Stop(old(Snapshot()))
      ensures forall t :: t in old(TracksOf(currentVideo)) ==> t.readyState == Ended
    {
      recording := false;

      ghost var before := Snapshot();
      if currentVideo.Some? {
        var tracks := currentVideo.value.tracks;
        var i := 0;
        while i < |tracks|
          invariant 0 <= i <= |tracks|
          invariant Snapshot() == before
          invariant forall j :: 0 <= j < i ==> tracks[j].readyState == Ended
        {
          tracks[i].Stop();
          i := i + 1;
        }
      }

      var (store, url) := urls.CreateObjectUrl(NewBlob(chunks, RecordingType));
      urls := store;
      currentVideo := None;
      objectUrl := url;
      StopKeepsInv(old(Snapshot()));
    }

    /** A capture stream's `inactive` event: the listener, if the stream has one,
        runs `stopCapture`. */
    method OnStreamInactive(stream: MediaStream)
      requires Valid()
      modifies this, TracksOf(currentVideo)
      ensures Valid() && Snapshot() == StreamInactive(old(Snapshot()), stream)
      ensures stream in old(attached) ==>
        forall t :: t in old(TracksOf(currentVideo)) ==> t.readyState == Ended
    {
      if stream in attached {
        StopCapture();
      }
    }

    /** The start/stop button's `onClick`. */
    method OnButtonClick(outcome: CaptureOutcome)
      requires Valid()
      modifies this, TracksOf(currentVideo)
      ensures Valid() && Snapshot() == ButtonClick(old(Snapshot()), outcome)
      ensures old(recording) ==>
        forall t :: t in old(TracksOf(currentVideo)) ==> t.readyState == Ended
    {
      if recording {
        StopCapture();
      } else {
        StartCapture(outcome);
      }
    }
  }
}
