# Honk Frame, modelled in Dafny

Honk Frame is a small browser app. It records a short "honk" from the microphone and keeps
every recording's handle in a newest-first history, persisted under the local-storage key
`'honks'`. It plays back and shares the newest honk. It also serves a fixed reply to the
Farcaster frame protocol at `/api/frame`.

This project models the two pieces of logic the repository has:

- `frame.dfy`, module `Frame`: the `/api/frame` handler. It is a total function from the
  request to one of two replies: `405` (Method Not Allowed, section 15.5.6 of RFC 9110) with
  `{ error: 'Only POST requests are allowed.' }`, or `200` with the fixed `vNext` frame
  envelope that has one button, `🦆 Honk Again`, and a `post_url` pointing back at
  `/api/frame`.
- `honks.dfy`, module `Honks`: the state logic of the `VoiceRecorder` component.
  - Its state is `isRecording`, `recorderRef.current`, `audioURLs` and the `'honks'` slot.
  - Pure functions on a `Snapshot` of that state give each operation: `StartStep`,
    `StopStep`, `ClearStep` and the main button's `PressStep`. `Run` applies a sequence of
    them.
  - Lemmas prove what the operations promise, both for one step and over whole runs.
  - The class `VoiceRecorder` is the component itself. Its fields are updated in place.
    The slot is a separate `Storage` object, which models the value read at line 9,
    written at line 75 and removed at line 86 of src/components/VoiceRecorder.tsx.
  - `Start`, `Stop`, `Clear` and `Press` each have a contract that ties the new state to
    the matching step function. `Share` has no step function: it only sets the share
    dialog's two fields, which are not part of the snapshot, and its contract states them
    directly.
- `wrappers.dfy`: an `Option` type.

Browser and library calls become parameters:

- how a start ends is a `DeviceAccess` given to `Start` and `Press`. It covers three cases:
  the stream is granted and the recorder starts; the attempt fails before line 53 installs
  a recorder; or `recorder.startRecording()` throws after line 53. In the last case the
  recorder stays installed and `isRecording` keeps its value;
- the fresh object URL is the `url` given to `Stop` and `Press`;
- the JSON text in storage is the list of strings it encodes, so stringify and parse are
  taken to be an exact round trip.

Behaviour of the code as written, kept in the model:

- `recorderRef` is never reset after a stop, and a start that throws at line 54 leaves a
  recorder installed without recording. In both cases the model treats a second direct
  `Stop` as prepending again. In the source, that depends on RecordRTC calling the stop
  callback again for a recorder that is already stopped. With each operation taken as one atomic step, the main button's dispatch rules
  both cases out, because it stops only while `isRecording` is true (`StartThrewThenStop`).
- `startRecording` has no "already recording" guard. A start while recording replaces the
  recorder. With each operation taken as one atomic step, this cannot happen through the button
  (`PressDispatches`).
- The history has no bound and nothing is ever evicted (`SessionsNewestFirst`).
- The class models the browser case of the loader. Rendering the component reads
  `window.location` unconditionally, so it only runs in a browser. The non-browser branch
  of the loader is covered by the pure `Loaded`.

## Model

| member | source | states |
|---|---|---|
| Frame.Handle | api/frame.ts:1-14 | a request gets 405 exactly when its method is not `'POST'`, with body `{ error: 'Only POST requests are allowed.' }`; a POST gets 200 with version `vNext`, the preview image URL, the single button `🦆 Honk Again` and `post_url` `https://honk-frame.vercel.app/api/frame` |
| Frame.DependsOnlyOnMethod | api/frame.ts:1-13 | two requests with the same method get the same reply |
| Frame.ExactlyTwoResponses | api/frame.ts:1-13 | every reply is the rejection or the frame reply, both are reached, and they differ |
| Frame.ReplyPointsBack | api/frame.ts:9-11 | the success envelope has exactly one button, its `post_url` is the origin plus `/api/frame`, and the image is on the same origin |
| Honks.Loaded | src/components/VoiceRecorder.tsx:7-13 | the initial-history loader; its three cases are stated by `LoadedHistory` and its round trip with the slot by `ReloadRestoresHistory` |
| Honks.Initial | src/components/VoiceRecorder.tsx:6-17 | the state after mounting; that state is consistent and not recording (`InitialConsistent`) |
| Honks.StartStep | src/components/VoiceRecorder.tsx:39-61 | `startRecording` on a snapshot; its outcomes are stated by `StartOutcomes` and `StartThrewThenStop` |
| Honks.StopStep | src/components/VoiceRecorder.tsx:63-82 | `stopRecording` on a snapshot; stated by `StopPrepends`, `SessionsNewestFirst` and `InertRunChangesNothing` |
| Honks.ClearStep | src/components/VoiceRecorder.tsx:84-87 | `clearHonks` on a snapshot; stated by `ClearIsTotal` |
| Honks.PressStep | src/components/VoiceRecorder.tsx:131-147 | the main button's dispatch; stated by `PressDispatches` and `PressStopPlaysNewHonk` |
| Honks.ControlsOf | src/components/VoiceRecorder.tsx:127-174 | which controls are rendered and which honk is played; stated by `ControlsShowNewest` |
| Honks.Storage.constructor | src/components/VoiceRecorder.tsx:9-10 | the `'honks'` slot holds the given list, or nothing when the key is absent |
| Honks.StartOutcomes | src/components/VoiceRecorder.tsx:45-60 | no start touches history or slot; only a granted stream turns recording on; a refusal changes nothing; a start that got as far as line 53 leaves its recorder installed |
| Honks.StartThrewThenStop | src/components/VoiceRecorder.tsx:53-59 | after a start that threw at line 54, the state is still consistent and not recording, the main button offers "start", a press does not stop, and a direct stop would add a honk |
| Honks.LoadedHistory | src/components/VoiceRecorder.tsx:7-13 | outside a browser the history starts as `[]`; in a browser it is the stored list, or `[]` when the key is absent |
| Honks.InitialConsistent | src/components/VoiceRecorder.tsx:6-17 | after mounting, recording is off and the history mirrors the slot |
| Honks.StepKeepsConsistent | src/components/VoiceRecorder.tsx:39-87 | start, stop, clear and press each keep the slot mirroring the history, and keep a recorder installed while recording |
| Honks.RunKeepsConsistent | src/components/VoiceRecorder.tsx:39-87 | the mirroring and the recorder invariant hold after any sequence of operations |
| Honks.ReloadRestoresHistory | src/components/VoiceRecorder.tsx:7-87 | after any run from mount, reloading from the slot gives exactly the in-memory history |
| Honks.SessionsNewestFirst | src/components/VoiceRecorder.tsx:45-76 | after N successful start/stop pairs, the history is their handles newest first, in front of the old history, and its length grows by N; after at least one pair, recording is off and the slot holds the same list |
| Honks.StopPrepends | src/components/VoiceRecorder.tsx:69-76 | a stop with a recorder present gives `[url] + old history`: one longer, older entries in order; the slot holds the new list and recording is off |
| Honks.InertRunChangesNothing | src/components/VoiceRecorder.tsx:45-81 | any number of failed starts and recorder-less stops, as direct calls or button presses, leave the whole state unchanged |
| Honks.ClearIsTotal | src/components/VoiceRecorder.tsx:84-87 | after clear the history is empty and the key absent, so a reload finds `[]`; clearing twice equals clearing once |
| Honks.PressDispatches | src/components/VoiceRecorder.tsx:131-147 | the main button stops exactly when recording and starts otherwise, so, with each operation taken as one atomic step, no start is issued through the UI while recording |
| Honks.ControlsShowNewest | src/components/VoiceRecorder.tsx:127-174 | the honk offered for playback is `history[0]`, present exactly when the history is non-empty; share and clear are offered exactly when the history is non-empty and not in frame mode |
| Honks.PressStopPlaysNewHonk | src/components/VoiceRecorder.tsx:63-82 | a press while recording, from a consistent state, prepends exactly one handle; that handle is the one played next; the button returns to "start" and the state stays consistent |
| Honks.VoiceRecorder.constructor | src/components/VoiceRecorder.tsx:6-17 | mounting: not recording, no recorder, history read from the slot, share dialog closed; the invariant holds |
| Honks.VoiceRecorder.Start | src/components/VoiceRecorder.tsx:39-61 | a granted stream installs its recorder and sets recording; a refusal returns the microphone alert and changes nothing; a throw from `startRecording()` returns the alert and leaves the new recorder installed with the flag unchanged; history and slot are untouched in every case |
| Honks.VoiceRecorder.Stop | src/components/VoiceRecorder.tsx:63-82 | with a recorder, the history becomes `[url] + old`, the slot holds it, and recording ends; without one, nothing changes; the recorder reference is kept |
| Honks.VoiceRecorder.Clear | src/components/VoiceRecorder.tsx:84-87 | the history becomes empty and the key is removed; the recording state is unchanged |
| Honks.VoiceRecorder.Press | src/components/VoiceRecorder.tsx:131-147 | the handler of both main buttons (lines 131 and 147): while recording, acts as `Stop` (one new honk, no alert, recording ends); otherwise acts as `Start` (history and slot unchanged, and the microphone alert returned exactly when the start was not granted) |
| Honks.VoiceRecorder.Share | src/components/VoiceRecorder.tsx:155-164 | outside frame mode, with a honk present, the honk handed to the share dialog is the newest one and the dialog opens |

## Left out

- Rendering and styling: markup, class strings, the header, the footer and the button labels. They are pure UI.
- QR code rendering and the dialog's Close button (lines 92-109): these are presentation only.
- Microphone capture and audio encoding (`getUserMedia`, RecordRTC, `getBlob`, `URL.createObjectURL`). They enter the model as a `DeviceAccess` outcome and a fresh `url` string.
- Logging: the `console.error` at line 58, next to the microphone alert, is a log line only. The alert itself is modelled.
- Playback and mute: `playSound`, `new Audio(...).play()`, the `isMuted` flag and its toggle button (lines 16, 32-37, 116-121). Their only effect is sound.
- The asynchronous `getDataURL` callback that sets `currentHonk` after a stop (lines 77-79). It is a library callback with no stated contract.
- Frame-mode plumbing: reading `?frame` from the URL, `classList` toggling, `history.replaceState` and the automatic start on mount (lines 20-30, 40-42, 65-67). `frameMode` is a constructor parameter, fixed for the component's life. In the source it is the value of one render only: line 26 replaces the URL with `/`, so every re-render after that computes it as false. Such a re-render follows from, for example, the `setIsRecording(true)` at line 55. So a component mounted with `?frame` does show the header, SHARE and CLEAR ALL HONKS after its first re-render, while the model keeps `frameMode` true and never offers `Share` to it.
- The JSON parser. The slot holds the list that the component itself stored. A value written by someone else cannot be represented: neither malformed text, on which `JSON.parse` at line 10 would throw, nor the empty string, which line 10 treats as absent.
- Honks.VoiceRecorder.Share: requires the share button to be present (not frame mode, history non-empty). The source never calls the handler otherwise.
- Timing and interleaving: the operations are atomic sequential steps. React's batching of state updates and the stale `audioURLs` captured by the stop callback (line 73) are not modelled. In the source, a second press can arrive while line 46 is still waiting for the microphone or while the stop callback of line 70 is pending. In those windows `isRecording` has not yet changed. A second start then overwrites `recorderRef` (line 53) while the first recorder is still recording, and a second stop calls `stopRecording` again on the same recorder. The model's dispatch lemmas do not cover these cases.
- Storage failures (quota, disabled storage): the source does not handle them either.
- The `Allow` header that RFC 9110 expects on a 405 reply: the handler does not send one, so the model does not either.
- api/honk-response.ts and src/api/honk-response.ts: each returns one constant reply whatever the input. They are not part of this model.
- vite.config.ts and src/App.tsx: build configuration and a layout wrapper, not part of this model.
- Commented-out earlier revisions in every file: not active code.
