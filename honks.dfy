/** The state logic of the `VoiceRecorder` component (src/components/VoiceRecorder.tsx): a
    recording flag, the current recorder, the newest-first list of recorded honks and the
    value persisted under the storage key 'honks'.

    The first half states the component's operations as functions on a `Snapshot` of that
    state and proves what they promise, alone and over whole runs; the second half is the
    component itself, a class whose methods are tied to those functions. */
module Honks {
  import opened Wrappers

  /** A recorder instance capturing one granted microphone stream. */
  datatype Capture = Capture(stream: nat)

  /** How an attempt to start ends.
      - `Granted`: the stream is granted and the recorder starts.
      - `Refused`: the attempt fails before a recorder is installed. Either the microphone
        request is rejected (permission denied, no device) or building the recorder throws.
      - `StartThrew`: the recorder was installed, and then starting it threw. */
  datatype DeviceAccess = Granted(stream: nat) | Refused | StartThrew(stream: nat)

  /** The text of the alert shown when the microphone cannot be had. */
  const MicrophoneAlert := "Could not access microphone - please check permissions"

  /** `isRecording`, `recorderRef.current`, `audioURLs`, and the list stored under 'honks'
      (None when the key is absent). */
  datatype Snapshot = Snapshot(recording: bool, recorder: Option<Capture>, urls: seq<string>, saved: Option<seq<string>>)

  /** The initial history: the stored list when running in a browser and the key is present,
      otherwise the empty list. */
  function Loaded(inBrowser: bool, saved: Option<seq<string>>): seq<string>
  {
    if !inBrowser then []
    else match saved
      case None => []
      case Some(list) => list
  }

  /** Outside a browser the history starts empty; in a browser it is the stored list, or empty
      when the key is absent. */
  lemma LoadedHistory(inBrowser: bool, saved: Option<seq<string>>)
    ensures !inBrowser ==> Loaded(inBrowser, saved) == []
    ensures inBrowser && saved.None? ==> Loaded(inBrowser, saved) == []
    ensures inBrowser && saved.Some? ==> Loaded(inBrowser, saved) == saved.value
  {
  }

  /** The state right after mounting. */
  function Initial(saved: Option<seq<string>>): Snapshot
  {
    Snapshot(false, None, Loaded(true, saved), saved)
  }

  /** The persisted slot mirrors the in-memory history. */
  predicate Mirrored(s: Snapshot)
  {
    (s.saved.None? ==> s.urls == []) &&
    (s.saved.Some? ==> s.urls == s.saved.value)
  }

  /** While recording, a recorder is installed. */
  predicate Coherent(s: Snapshot)
  {
    s.recording ==> s.recorder.Some?
  }

  predicate Consistent(s: Snapshot)
  {
    Mirrored(s) && Coherent(s)
  }

  /** `startRecording`: a granted stream installs a recorder and starts recording; a refusal
      changes nothing (the user only sees an alert); a recorder that throws on starting stays
      installed while the recording flag keeps its value. */
  function StartStep(s: Snapshot, access: DeviceAccess): Snapshot
  {
    match access
    case Granted(k) => s.(recording := true, recorder := Some(Capture(k)))
    case Refused => s
    case StartThrew(k) => s.(recorder := Some(Capture(k)))
  }

  /** What each start outcome leaves behind. No start touches history or slot. Only a granted
      stream turns recording on. A refusal changes nothing. Any outcome that got as far as
      building a recorder leaves that recorder installed. */
  lemma StartOutcomes(s: Snapshot, access: DeviceAccess)
    ensures var t := StartStep(s, access);
      t.urls == s.urls && t.saved == s.saved &&
      (t.recording <==> access.Granted? || s.recording) &&
      (access.Refused? ==> t == s) &&
      (!access.Refused? ==> t.recorder == Some(Capture(access.stream)))
  {
  }

  /** After a start that threw, the button still offers "start", and a stop called directly
      would now find a recorder: the next stop adds a honk even though recording never began. */
  lemma {:induction false} StartThrewThenStop(s: Snapshot, frameMode: bool, k: nat, url: string)
    requires Consistent(s) && !s.recording
    ensures var t := StartStep(s, StartThrew(k));
      Consistent(t) && !t.recording &&
      ControlsOf(t, frameMode).main == StartRecording &&
      PressStep(t, Refused, url) == t &&
      StopStep(t, url).urls == [url] + s.urls
  {
    StopPrepends(StartStep(s, StartThrew(k)), url);
  }

  /** `stopRecording`: with a recorder present, the fresh handle `url` goes in front of the
      history, the new history is persisted and recording ends; without one nothing happens. */
  function StopStep(s: Snapshot, url: string): Snapshot
  {
    if s.recorder.None? then s
    else
      var urls := [url] + s.urls;
      s.(urls := urls, saved := Some(urls), recording := false)
  }

  /** `clearHonks`: empty history, key removed. */
  function ClearStep(s: Snapshot): Snapshot
  {
    s.(urls := [], saved := None)
  }

  /** The main button's handler: stop while recording, start otherwise. `access` is what the
      browser would answer to a start and `url` the handle a stop would produce. */
  function PressStep(s: Snapshot, access: DeviceAccess, url: string): Snapshot
  {
    if s.recording then StopStep(s, url) else StartStep(s, access)
  }

  /** One thing the component can be asked to do. */
  datatype Event = Start(access: DeviceAccess) | Stop(url: string) | Clear | Press(access: DeviceAccess, url: string)

  function Step(s: Snapshot, e: Event): Snapshot
  {
    match e
    case Start(a) => StartStep(s, a)
    case Stop(u) => StopStep(s, u)
    case Clear => ClearStep(s)
    case Press(a, u) => PressStep(s, a, u)
  }

  /** The state after handling `events` in order. */
  function Run(s: Snapshot, events: seq<Event>): Snapshot
    decreases |events|
  {
    if events == [] then s else Run(Step(s, events[0]), events[1..])
  }

  /** Every operation keeps the state consistent. */
  lemma StepKeepsConsistent(s: Snapshot, e: Event)
    requires Consistent(s)
    ensures Consistent(Step(s, e))
  {
  }

  /** The state just after mounting is consistent: the history is what the slot holds. */
  lemma InitialConsistent(saved: Option<seq<string>>)
    ensures Consistent(Initial(saved))
    ensures !Initial(saved).recording
  {
  }

  /** Consistency holds after any run from a consistent state. */
  lemma {:induction false} RunKeepsConsistent(s: Snapshot, events: seq<Event>)
    requires Consistent(s)
    ensures Consistent(Run(s, events))
    decreases |events|
  {
    if events != [] {
      StepKeepsConsistent(s, events[0]);
      RunKeepsConsistent(Step(s, events[0]), events[1..]);
    }
  }

  /** Reloading the page after any run from mount restores exactly the history it left. */
  lemma {:induction false} ReloadRestoresHistory(saved: Option<seq<string>>, events: seq<Event>)
    ensures var s := Run(Initial(saved), events); Loaded(true, s.saved) == s.urls
  {
    InitialConsistent(saved);
    RunKeepsConsistent(Initial(saved), events);
  }

  /** Running `a` and then `b` is running `a + b`. */
  lemma {:induction false} RunAppend(s: Snapshot, a: seq<Event>, b: seq<Event>)
    ensures Run(s, a + b) == Run(Run(s, a), b)
    decreases |a|
  {
    if a == [] {
      assert a + b == b;
    } else {
      assert (a + b)[0] == a[0];
      assert (a + b)[1..] == a[1..] + b;
      RunAppend(Step(s, a[0]), a[1..], b);
    }
  }

  /** One successful recording: a granted stream `stream`, stopped into handle `url`. */
  datatype Take = Take(stream: nat, url: string)

  /** The start/stop pairs of a sequence of takes, oldest first. */
  function Sessions(takes: seq<Take>): (events: seq<Event>)
    ensures |events| == 2 * |takes|
  {
    if takes == [] then []
    else [Start(Granted(takes[0].stream)), Stop(takes[0].url)] + Sessions(takes[1..])
  }

  function UrlsOf(takes: seq<Take>): (urls: seq<string>)
    ensures |urls| == |takes|
    ensures forall i :: 0 <= i < |takes| ==> urls[i] == takes[i].url
  {
    if takes == [] then [] else [takes[0].url] + UrlsOf(takes[1..])
  }

  function Reversed(s: seq<string>): (r: seq<string>)
    ensures |r| == |s|
    ensures forall i :: 0 <= i < |s| ==> r[i] == s[|s| - 1 - i]
  {
    if s == [] then [] else Reversed(s[1..]) + [s[0]]
  }

  /** After N completed recordings the history is their handles newest first, in front of the
      history there was before; nothing is dropped, and the slot holds the same list. */
  lemma {:induction false} SessionsNewestFirst(s: Snapshot, takes: seq<Take>)
    ensures var t := Run(s, Sessions(takes));
      t.urls == Reversed(UrlsOf(takes)) + s.urls &&
      |t.urls| == |takes| + |s.urls| &&
      (takes != [] ==> !t.recording && t.saved == Some(t.urls))
    decreases |takes|
  {
    if takes != [] {
      var first := [Start(Granted(takes[0].stream)), Stop(takes[0].url)];
      RunAppend(s, first, Sessions(takes[1..]));
      var started := StartStep(s, Granted(takes[0].stream));
      var mid := StopStep(started, takes[0].url);
      assert first[1..] == [Stop(takes[0].url)];
      assert Run(s, first) == Run(started, [Stop(takes[0].url)]);
      assert Run(started, [Stop(takes[0].url)]) == Run(mid, []);
      assert mid.urls == [takes[0].url] + s.urls && !mid.recording && mid.saved == Some(mid.urls);
      SessionsNewestFirst(mid, takes[1..]);
      var t := Run(mid, Sessions(takes[1..]));
      assert UrlsOf(takes)[1..] == UrlsOf(takes[1..]);
      assert Reversed(UrlsOf(takes)) == Reversed(UrlsOf(takes[1..])) + [takes[0].url];
      if takes[1..] == [] {
        assert t == mid;
      }
    }
  }

  /** A stop with a recorder present grows the history by exactly the new handle, in front,
      keeps the older ones in order, persists it and ends recording. */
  lemma StopPrepends(s: Snapshot, url: string)
    requires s.recorder.Some?
    ensures var t := StopStep(s, url);
      |t.urls| == |s.urls| + 1 && t.urls[0] == url && t.urls[1..] == s.urls &&
      t.saved == Some(t.urls) && !t.recording && t.recorder == s.recorder
  {
  }

  /** An event that changes nothing in state `s`: a refused start, a stop without a recorder,
      or a press that dispatches to one of those. */
  predicate Inert(s: Snapshot, e: Event)
  {
    match e
    case Start(a) => a.Refused?
    case Stop(_) => s.recorder.None?
    case Clear => false
    case Press(a, _) => if s.recording then s.recorder.None? else a.Refused?
  }

  /** Failed starts and recorder-less stops, in any number, leave the whole state unchanged. */
  lemma {:induction false} InertRunChangesNothing(s: Snapshot, events: seq<Event>)
    requires forall i :: 0 <= i < |events| ==> Inert(s, events[i])
    ensures Run(s, events) == s
    decreases |events|
  {
    if events != [] {
      assert Inert(s, events[0]);
      assert Step(s, events[0]) == s;
      InertRunChangesNothing(s, events[1..]);
    }
  }

  /** Clearing leaves an empty history and no key, so a reload finds nothing; clearing twice
      is clearing once. */
  lemma ClearIsTotal(s: Snapshot)
    ensures ClearStep(s).urls == [] && ClearStep(s).saved == None
    ensures Loaded(true, ClearStep(s).saved) == []
    ensures ClearStep(ClearStep(s)) == ClearStep(s)
  {
  }

  /** What the main button does. */
  datatype Action = StartRecording | StopRecording

  /** The controls the component renders: the main button's action, the honk offered for
      playback, and whether the share and clear buttons are shown. */
  datatype Controls = Controls(main: Action, playing: Option<string>, share: bool, clear: bool)

  function ControlsOf(s: Snapshot, frameMode: bool): Controls
  {
    Controls(
      if s.recording then StopRecording else StartRecording,
      if |s.urls| == 0 then None else Some(s.urls[0]),
      !frameMode && |s.urls| > 0,
      !frameMode && |s.urls| > 0)
  }

  /** The button stops exactly when recording, so through the UI no start is issued while a
      recording runs; and the press does what the button shows. */
  lemma PressDispatches(s: Snapshot, frameMode: bool, access: DeviceAccess, url: string)
    ensures ControlsOf(s, frameMode).main == StopRecording <==> s.recording
    ensures ControlsOf(s, frameMode).main == StartRecording ==> PressStep(s, access, url) == StartStep(s, access)
    ensures ControlsOf(s, frameMode).main == StopRecording ==> PressStep(s, access, url) == StopStep(s, url)
  {
  }

  /** The honk played (and shared) is the newest one; share and clear are offered exactly when
      there is a honk and the page is not embedded as a frame. */
  lemma ControlsShowNewest(s: Snapshot, frameMode: bool)
    ensures ControlsOf(s, frameMode).playing.Some? <==> |s.urls| > 0
    ensures |s.urls| > 0 ==> ControlsOf(s, frameMode).playing == Some(s.urls[0])
    ensures ControlsOf(s, frameMode).clear <==> !frameMode && |s.urls| > 0
    ensures ControlsOf(s, frameMode).share == ControlsOf(s, frameMode).clear
  {
  }

  /** A press that stops a consistent recording produces exactly one honk, and it is the one
      offered for playback afterwards. */
  lemma {:induction false} PressStopPlaysNewHonk(s: Snapshot, frameMode: bool, access: DeviceAccess, url: string)
    requires Consistent(s) && s.recording
    ensures var t := PressStep(s, access, url);
      t.urls == [url] + s.urls && ControlsOf(t, frameMode).playing == Some(url) &&
      ControlsOf(t, frameMode).main == StartRecording && Consistent(t)
  {
    assert s.recorder.Some?;
    StopPrepends(s, url);
  }

  /** The storage key 'honks': the JSON array held there, kept as the list of strings it
      encodes, or None when the key is absent. */
  class Storage {
    var honks: Option<seq<string>>

    constructor (honks: Option<seq<string>>)
      ensures this.honks == honks
    {
      this.honks := honks;
    }
  }

  /** The component. `storage` is the page's local storage; `frameMode` says whether the page
      was opened as an embedded frame. */
  class VoiceRecorder {
    const storage: Storage
    const frameMode: bool
    var isRecording: bool
    var recorderRef: Option<Capture>
    var audioURLs: seq<string>
    /** The honk handed to the share dialog, and whether that dialog is open. */
    var currentHonk: string
    var showQR: bool

    function Model(): Snapshot
      reads this, storage
    {
      Snapshot(isRecording, recorderRef, audioURLs, storage.honks)
    }

    ghost predicate Valid()
      reads this, storage
    {
      Consistent(Model())
    }

    /** Mounting: not recording, no recorder, the history read from storage. */
    constructor (storage: Storage, frameMode: bool)
      ensures this.storage == storage && this.frameMode == frameMode
      ensures Model() == Initial(storage.honks)
      ensures currentHonk == "" && !showQR
      ensures Valid()
    {
      this.storage := storage;
      this.frameMode := frameMode;
      isRecording := false;
      recorderRef := None;
      audioURLs := match storage.honks case None => [] case Some(list) => list;
      currentHonk := "";
      showQR := false;
    }

    /** `startRecording`, with `access` the browser's answer to the microphone request. */
    method Start(access: DeviceAccess) returns (alert: Option<string>)
      requires Valid()
      modifies this
      ensures Valid()
      ensures Model() == StartStep(old(Model()), access)
      ensures access.Granted? ==> isRecording && recorderRef == Some(Capture(access.stream)) && alert == None
      ensures access.Refused? ==> isRecording == old(isRecording) && recorderRef == old(recorderRef) && alert == Some(MicrophoneAlert)
      ensures access.StartThrew? ==> isRecording == old(isRecording) && recorderRef == Some(Capture(access.stream)) && alert == Some(MicrophoneAlert)
      ensures audioURLs == old(audioURLs) && storage.honks == old(storage.honks)
      ensures currentHonk == old(currentHonk) && showQR == old(showQR)
    {
      match access
      case Granted(k) =>
        recorderRef := Some(Capture(k));
        isRecording := true;
        alert := None;
      case Refused =>
        alert := Some(MicrophoneAlert);
      case StartThrew(k) =>
        recorderRef := Some(Capture(k));
        alert := Some(MicrophoneAlert);
    }

    /** `stopRecording`, with `url` the fresh handle made for the finished recording. */
    method Stop(url: string)
      requires Valid()
      modifies this, storage
      ensures Valid()
      ensures Model() == StopStep(old(Model()), url)
      ensures old(recorderRef).Some? ==>
        audioURLs == [url] + old(audioURLs) && storage.honks == Some(audioURLs) && !isRecording
      ensures old(recorderRef).None? ==>
        audioURLs == old(audioURLs) && storage.honks == old(storage.honks) && isRecording == old(isRecording)
      ensures recorderRef == old(recorderRef)
      // The data-URL callback that later overwrites currentHonk is not part of this model.
      ensures currentHonk == old(currentHonk) && showQR == old(showQR)
    {
      if recorderRef.Some? {
        var newURLs := [url] + audioURLs;
        audioURLs := newURLs;
        storage.honks := Some(newURLs);
        isRecording := false;
      }
    }

    /** `clearHonks`. */
    method Clear()
      requires Valid()
      modifies this, storage
      ensures Valid()
      ensures Model() == ClearStep(old(Model()))
      ensures audioURLs == [] && storage.honks == None
      ensures isRecording == old(isRecording) && recorderRef == old(recorderRef)
      ensures currentHonk == old(currentHonk) && showQR == old(showQR)
    {
      audioURLs := [];
      storage.honks := None;
    }

    /** The main button: stop while recording, start otherwise. */
    method Press(access: DeviceAccess, url: string) returns (alert: Option<string>)
      requires Valid()
      modifies this, storage
      ensures Valid()
      ensures Model() == PressStep(old(Model()), access, url)
      ensures old(isRecording) ==> alert == None && audioURLs == [url] + old(audioURLs) && !isRecording
      ensures !old(isRecording) ==> storage.honks == old(storage.honks) && audioURLs == old(audioURLs)
      ensures !old(isRecording) ==> alert == (if access.Granted? then None else Some(MicrophoneAlert))
      ensures currentHonk == old(currentHonk) && showQR == old(showQR)
    {
      if isRecording {
        Stop(url);
        alert := None;
      } else {
        alert := Start(access);
      }
    }

    /** The share button, offered only outside frame mode and with a honk present: it hands
        the newest honk to the share dialog and opens it. */
    method Share()
      requires Valid() && !frameMode && |audioURLs| > 0
      modifies this`currentHonk, this`showQR
      ensures Valid()
      ensures currentHonk == audioURLs[0] && showQR
    {
      currentHonk := audioURLs[0];
      showQR := true;
    }
  }
}
