# Screen recorder capture lifecycle, in Dafny

This project models the capture lifecycle controller of a browser screen recorder's
`App` component. The controller has a start/stop button. Starting asks the browser
for a screen-capture stream and attaches a media recorder to it. Every non-empty
recorded chunk is collected. Stopping stops the stream's tracks, joins the chunks
into one `video/webm` blob and shows a download link (an object URL) for it. A
failed capture request shows an error message.

The browser facilities are abstract values and objects (module `Media`):
- a blob is a byte sequence with a MIME type;
- a recorder event carries a blob or nothing;
- the page's object-URL store maps live URLs to blobs, mints a new URL per
  `createObjectURL` (`"blob:"` followed by a counter) and drops one per
  `revokeObjectURL`;
- a stream is a list of track objects whose `Stop` ends them.

Files:
- `media.dfy` (module `Media`): blobs, chunk filtering and concatenation, the URL
  store, tracks and streams.
- `lifecycle.dfy` (module `Lifecycle`): the component state as a value, one
  transition function per event, the error messages, and the invariant every
  transition keeps.
- `sessions.dfy` (module `Sessions`): runs of events from mount, and what holds
  after any run.
- `controller.dfy` (module `Controller`): class `CaptureController`, whose fields are
  the component's state and whose methods are its handlers. Each method's new state
  is stated as the matching `Lifecycle` transition of its old state.

The model follows the code where the intended design says otherwise:
- The chunk list is created once and never emptied; starting a new capture does not
  reset it. Every download therefore holds all chunks received since the component
  mounted, across sessions (`Sessions.ArtifactHoldsEveryChunk`), not one session's.
- `stopCapture` has no guard. It runs from the button and again from the stream's
  `inactive` listener. Each run mints a new URL and does not revoke the one it
  replaces, so a URL stays live with nothing referring to it
  (`Sessions.RepeatedStopLeavesUrlLive`). Only the next start revokes the shown URL.
- The `dataavailable` listener does not check whether recording is running, so a
  chunk that arrives after a stop is kept and appears in the next download
  (`Lifecycle.DataAvailable` has no precondition).
- The error taxonomy is three messages: a fixed permission message for
  `NotAllowedError`, a fixed unsupported message for `NotSupportedError`, and
  `" Error: "` (with a leading space) followed by the error's string form for any other
  name. A missing `getDisplayMedia` shows a fourth, separate message.

## Model

| member | source | states |
|---|---|---|
| `Media.NonEmptyChunks` | src/App.jsx:50-54 | the chunks kept from a run of recorder events all have positive size, and there are exactly as many as events with positive size |
| `Media.NonEmptyChunksKeepBytes` | src/App.jsx:50-54 | dropping empty and missing chunks loses no bytes: the kept chunks, joined, are all the events' bytes in arrival order |
| `Media.UrlStore.CreateObjectUrl` | src/App.jsx:28-32 | creating an object URL yields a non-empty URL that was not live before; the store gains exactly that URL, referring to the blob, and stays well formed |
| `Media.UrlStore.RevokeObjectUrl` | src/App.jsx:84-86 | revoking removes exactly that URL from the live ones and changes no other entry |
| `Media.MediaStreamTrack.Stop` | src/App.jsx:23 | `track.stop()` ends the track |
| `Lifecycle.ErrorMessage` | src/App.jsx:67-77 | the message `handleError` shows is never empty |
| `Lifecycle.ErrorMessageByName` | src/App.jsx:67-77 | the permission message is shown exactly for `NotAllowedError`, the unsupported message exactly for `NotSupportedError`, and any other name shows `" Error: "` followed by the error's text |
| `Lifecycle.Reset` | src/App.jsx:79-88 | the synchronous part of a start clears the stream, the message and the URL, and revokes exactly the previously shown URL; recording flag and chunks are untouched |
| `Lifecycle.Start` | src/App.jsx:79-114 | after a start the flag is set exactly when a stream was granted; the stream is stored only then; the message is the unsupported text, empty, or the mapped error; no URL is created and the chunks are kept |
| `Lifecycle.DataAvailable` | src/App.jsx:50-54 | a recorder event appends its chunk at the end exactly when its size is positive; the existing chunks and the rest of the state are unchanged |
| `Lifecycle.Stop` | src/App.jsx:16-38 | a stop clears the flag and the stream, and shows a new URL not live before, referring to a `video/webm` blob of all chunks in order; the old URL is not revoked |
| `Lifecycle.StreamInactive` | src/App.jsx:42-44 | a stream's `inactive` event stops the capture exactly when the stream has the listener |
| `Lifecycle.ButtonClick` | src/App.jsx:130-136 | the button stops when the flag is set and starts otherwise |
| `Lifecycle.ButtonLabel` | src/App.jsx:139 | the label reads "Stop Capture" exactly while recording and "Start Capture" otherwise |
| `Lifecycle.InitialInv` | src/App.jsx:10-14 | the state at mount satisfies the invariant |
| `Lifecycle.StartKeepsInv` | src/App.jsx:79-114 | a start keeps the invariant |
| `Lifecycle.DataAvailableKeepsInv` | src/App.jsx:50-54 | appending a chunk keeps the shown download a prefix of the chunk list |
| `Lifecycle.StopKeepsInv` | src/App.jsx:16-38 | a stop keeps the invariant: its new URL holds the whole chunk list |
| `Lifecycle.StreamInactiveKeepsInv` | src/App.jsx:42-44 | an `inactive` event keeps the invariant |
| `Lifecycle.ButtonClickKeepsInv` | src/App.jsx:130-136 | a click keeps the invariant |
| `Sessions.StepKeepsInv` | src/App.jsx:40-65 | every event the component handles keeps the invariant |
| `Sessions.RunKeepsInv` | src/App.jsx:40-65 | any run of events from a consistent state ends in a consistent state |
| `Sessions.RunChunks` | src/App.jsx:50-54 | after any run the chunk list is the old list followed by the run's positive-size chunks in arrival order, whatever starts and stops happened |
| `Sessions.ArtifactHoldsEveryChunk` | src/App.jsx:28-32 | the blob a stop publishes after any run from mount holds, in order, the bytes of every chunk received since mount |
| `Sessions.Reachable` | src/App.jsx:79-114 | after any run from mount at most one stream is held, exactly while recording, and it has a recorder; a shown URL is live and holds the chunks received up to some moment |
| `Sessions.StartLeavesNoDownload` | src/App.jsx:84-88 | after a start no URL is shown, the previously shown one is no longer live, and no URL was created |
| `Sessions.RepeatedStopLeavesUrlLive` | src/App.jsx:16-44 | two stops in a row leave two new live URLs; the first is no longer shown but still live, with the same blob contents |
| `Sessions.ClickToggles` | src/App.jsx:130-139 | after a click the label reads "Stop Capture" exactly when the click started a session whose stream was granted |
| `Sessions.PermissionDeniedScenario` | src/App.jsx:110-113 | a refused request leaves the flag clear, shows the permission message and no URL, and a later granted start clears the message and records |
| `Sessions.ThreeChunkScenario` | src/App.jsx:40-58 | chunks of 10, 0 and 20 bytes followed by the stream ending yield a 30-byte `video/webm` blob of the first and the last chunk, and nothing recording |
| `Controller.CaptureController.constructor` | src/App.jsx:10-14 | the fields start as the state hooks' initial values |
| `Controller.CaptureController.HandleError` | src/App.jsx:67-77 | the mapped message replaces the previous one and nothing else changes |
| `Controller.CaptureController.StartCapture` | src/App.jsx:79-114 | the fields change as `Lifecycle.Start` says, and the invariant is kept |
| `Controller.CaptureController.OnDataAvailable` | src/App.jsx:50-54 | the fields change as `Lifecycle.DataAvailable` says |
| `Controller.CaptureController.StopCapture` | src/App.jsx:16-38 | every track of the held stream is ended, and the fields change as `Lifecycle.Stop` says |
| `Controller.CaptureController.OnStreamInactive` | src/App.jsx:42-44 | the listener runs `StopCapture` for a stream that has it, and does nothing otherwise |
| `Controller.CaptureController.OnButtonClick` | src/App.jsx:130-136 | the click stops (ending the stream's tracks) while recording and starts otherwise |

## Left out

- `src/components/Video.jsx`, the markup, the styles, the `About` component and the icon: they only display state. The button label and the download link's condition (a non-empty URL) are modelled through `ButtonLabel` and `objectUrl`.
- The media itself: capture, encoding and the bytes of chunks are abstract. `MediaRecorder.start(10)` and its timing are not modelled. A recorder's events are inputs.
- The format of object URLs: real URLs carry the origin and a unique id. The model mints `"blob:"` and a counter, which is enough to make each new URL fresh.
- Asynchrony: the awaited capture request is an input (`CaptureOutcome`) resolved at once. Events arriving while the request is pending, such as a second click, are not modelled.
- React's scheduling: state setters take effect at once, and the effect that attaches the recorder and the `inactive` listener runs in the same step as the granted start. Stale closures are not modelled, so a listener sees the current state.
- The `inactive` listener on the recorder object (src/App.jsx:56-58): recorders do not fire that event, so it never runs.
- That stopping every track makes the stream fire `inactive`: the event is an input of the model, so the second, listener-driven stop is a separate event.
- The recorder's final `dataavailable` after its stream ends is not produced by the model. When it arrives it is an ordinary input event.
- Lookups of Object prototype names in the message table (an error named `toString` would find a function): error names are assumed not to be such names.
- Releasing listeners and stopping the recorder on unmount: the effect's cleanup does nothing, and unmount is not modelled.
