/** The portal's audio recording hook (`useAudio`): one recording session at a time over the
    browser's microphone stream and `MediaRecorder`, with a duration counter driven by a 100 ms
    interval and an automatic stop at the maximum duration.

    The browser is represented by the hook's own calls into it: whether the microphone request
    succeeds is a parameter of `Start`, a recorded data event is `Chunk`, and the passing of time
    is `Tick(now)` with `now` the value `Date.now()` returns. */
module AudioEngine {
  import opened Wrappers

  type byte = bv8

  /** The default maximum recording length, in seconds. */
  const DefaultMaxDuration := 300

  /** Period of the duration counter, in milliseconds. */
  const TickIntervalMs := 100

  const AudioMimeType := "audio/webm"

  const PermissionError := "Failed to access microphone. Please check your permissions."

  /** One piece of encoded audio delivered by the recorder's `dataavailable` event. */
  datatype Chunk = Chunk(data: seq<byte>)

  /** The audio the recorder produced: the collected chunks in arrival order and a MIME type.
      `id` stands for the object's identity: every stop creates a new `Blob` object. */
  datatype Blob = Blob(id: nat, parts: seq<Chunk>, mimeType: string)

  function PartsSize(parts: seq<Chunk>): nat
    decreases |parts|
  {
    if |parts| == 0 then 0 else |parts[0].data| + PartsSize(parts[1..])
  }

  /** `blob.size` */
  function Size(b: Blob): nat {
    PartsSize(b.parts)
  }

  /** Every part of a blob assembled from non-empty chunks adds to its size. */
  lemma {:induction false} PartsSizeAtLeastCount(parts: seq<Chunk>)
    requires forall k :: 0 <= k < |parts| ==> |parts[k].data| > 0
    ensures PartsSize(parts) >= |parts|
    decreases |parts|
  {
    if |parts| > 0 {
      PartsSizeAtLeastCount(parts[1..]);
    }
  }

  lemma {:induction false} PartsSizeAppend(parts: seq<Chunk>, c: Chunk)
    ensures PartsSize(parts + [c]) == PartsSize(parts) + |c.data|
    decreases |parts|
  {
    if |parts| == 0 {
      assert parts + [c] == [c];
    } else {
      PartsSizeAppend(parts[1..], c);
      assert (parts + [c])[1..] == parts[1..] + [c];
    }
  }

  /** The state of the `MediaRecorder` the hook's recorder ref points to. */
  datatype RecorderState = NoRecorder | Active | PausedRec | Inactive

  /** `Math.floor((now - start) / 1000)`: Dafny's division by a positive divisor floors. */
  function ElapsedSeconds(start: int, now: int): (s: int)
    ensures 1000 * s <= now - start < 1000 * (s + 1)
  {
    (now - start) / 1000
  }

  /** For a clock that does not go back, the counter never decreases. */
  lemma ElapsedMonotone(start: int, now1: int, now2: int)
    requires now1 <= now2
    ensures ElapsedSeconds(start, now1) <= ElapsedSeconds(start, now2)
  {
  }

  /** Everything the hook holds: its React state, its refs, and what the model tracks beside them. */
  datatype Hook = Hook(
    isRecording: bool, isPaused: bool, duration: int, audioBlob: Option<Blob>, error: Option<string>,
    recorder: RecorderState, chunks: seq<Chunk>, streamLive: bool, startTime: int,
    current: Option<bool>, leaked: seq<bool>, leakedStreams: nat,
    completed: seq<Blob>, blobsMade: nat, committed: bool)

  /** A granted start: a new stream, recorder and interval replace those the refs held. */
  function Started(h: Hook, now: int): Hook {
    h.(error := None, streamLive := true,
       leakedStreams := h.leakedStreams + (if h.streamLive then 1 else 0),
       leaked := h.leaked + (if h.current.Some? then [h.current.value] else []),
       current := Some(h.isRecording), recorder := Active, chunks := [],
       isRecording := true, isPaused := false, startTime := now)
  }

  /** `recorder.stop()` with its `stop` event delivered at once: the chunks become a new blob,
      which is shown and, when a callback was given, handed to it. */
  function Finished(h: Hook, hasCallback: bool): Hook {
    var blob := Blob(h.blobsMade, h.chunks, AudioMimeType);
    h.(recorder := Inactive, audioBlob := Some(blob), blobsMade := h.blobsMade + 1,
       completed := h.completed + (if hasCallback then [blob] else []))
  }

  /** The body of `stopRecording` once its guard holds. */
  function Stopped(h: Hook, hasCallback: bool): Hook {
    Finished(h, hasCallback).(streamLive := false, current := None, isRecording := false, isPaused := false)
  }

  /** The interval callback as intended: counter, then the stop at a non-zero limit. */
  function Ticked(h: Hook, maxDuration: int, hasCallback: bool, now: int): Hook {
    if h.current.None? && |h.leaked| == 0 then h
    else
      var t := h.(duration := ElapsedSeconds(h.startTime, now));
      if maxDuration != 0 && t.duration >= maxDuration && t.isRecording then Stopped(t, hasCallback) else t
  }

  /** The interval callbacks as written: each calls the `stopRecording` its start captured. */
  function TickedAsWritten(h: Hook, maxDuration: int, hasCallback: bool, now: int): Hook {
    if h.current.None? && |h.leaked| == 0 then h
    else
      var t := h.(duration := ElapsedSeconds(h.startTime, now));
      if maxDuration != 0 && t.duration >= maxDuration && Armed(t.current, t.leaked) then Stopped(t, hasCallback) else t
  }

  class Recorder {
    /** Configuration (`UseAudioOptions`). */
    const maxDuration: int
    const hasCallback: bool

    /** React state. */
    var isRecording: bool
    var isPaused: bool
    var duration: int
    var audioBlob: Option<Blob>
    var error: Option<string>

    /** Refs. */
    var recorder: RecorderState
    var chunks: seq<Chunk>
    var streamLive: bool
    var startTime: int
    /** The interval the interval ref holds, with the `isRecording` value captured by the
        `stopRecording` its callback calls. */
    var current: Option<bool>

    /** Intervals and streams no ref points to any more (a start while a recording runs). */
    var leaked: seq<bool>
    var leakedStreams: nat

    /** The blobs handed to `onRecordingComplete`, in order, and how many blobs were made. */
    var completed: seq<Blob>
    var blobsMade: nat

    /** The `isRecording` of the last committed render: the value the cleanup of the
        `[isRecording, stopRecording]` effect, and its `stopRecording`, captured. */
    var committed: bool

    ghost predicate Valid()
      reads this
    {
      && (isPaused ==> isRecording)
      && (isRecording <==> current.Some?)
      && (isRecording ==> streamLive && (recorder == Active || recorder == PausedRec)
                          && (isPaused <==> recorder == PausedRec))
      && (!isRecording ==> !streamLive && recorder != Active && recorder != PausedRec)
      && (committed || |leaked| > 0 ==> recorder != NoRecorder)
      && (forall k :: 0 <= k < |chunks| ==> |chunks[k].data| > 0)
      && (audioBlob.Some? ==> audioBlob.value.id < blobsMade)
    }

    function Snapshot(): Hook
      reads this
    {
      Hook(isRecording, isPaused, duration, audioBlob, error, recorder, chunks, streamLive, startTime,
           current, leaked, leakedStreams, completed, blobsMade, committed)
    }

    /** The blob the recorder's `stop` event would assemble now. */
    function NextBlob(): Blob
      reads this
    {
      Blob(blobsMade, chunks, AudioMimeType)
    }

    /** Some interval callback is still scheduled. */
    predicate Ticking()
      reads this
    {
      current.Some? || |leaked| > 0
    }

    /** `useAudio(options)`: `maxDuration` defaults to 300 seconds. */
    constructor (maxDurationOption: Option<int>, hasCallback: bool)
      ensures Valid()
      ensures maxDuration == maxDurationOption.GetOr(DefaultMaxDuration)
      ensures this.hasCallback == hasCallback
      ensures Snapshot() == Hook(false, false, 0, None, None, NoRecorder, [], false, 0, None, [], 0, [], 0, false)
      ensures !Ticking()
    {
      maxDuration := maxDurationOption.GetOr(DefaultMaxDuration);
      this.hasCallback := hasCallback;
      isRecording := false;
      isPaused := false;
      duration := 0;
      audioBlob := None;
      error := None;
      recorder := NoRecorder;
      chunks := [];
      streamLive := false;
      startTime := 0;
      current := None;
      leaked := [];
      leakedStreams := 0;
      completed := [];
      blobsMade := 0;
      committed := false;
    }

    /** `startRecording`. `granted` says whether the microphone request succeeds; `now` is the
        clock at that moment. The stream, recorder and interval it creates replace the ones the
        refs held; any still running are leaked, not stopped. Duration and blob are kept. */
    method Start(granted: bool, now: int)
      requires Valid()
      modifies this
      ensures Valid()
      ensures Snapshot() == if granted then Started(old(Snapshot()), now)
                            else old(Snapshot()).(error := Some(PermissionError))
      ensures granted ==> isRecording && !isPaused && recorder == Active && chunks == []
                          && startTime == now && error == None
      ensures granted && old(isRecording) ==> |leaked| == |old(leaked)| + 1
      ensures !granted ==> isRecording == old(isRecording) && error == Some(PermissionError)
      ensures duration == old(duration) && audioBlob == old(audioBlob) && completed == old(completed)
    {
      if !granted {
        error := Some(PermissionError);
      } else {
        OpenStream();
        StartRecorder(now);
      }
    }

    /** The granted stream replaces the one the stream ref held, which is leaked if still live. */
    method OpenStream()
      requires Valid()
      modifies this
      ensures Snapshot() == old(Snapshot()).(error := None, streamLive := true,
                leakedStreams := old(leakedStreams) + (if old(streamLive) then 1 else 0))
    {
      error := None;
      leakedStreams := leakedStreams + (if streamLive then 1 else 0);
      streamLive := true;
    }

    /** A new recorder starts with no chunks; the interval started replaces the one the ref held. */
    method StartRecorder(now: int)
      requires streamLive && (isRecording <==> current.Some?)
      requires audioBlob.Some? ==> audioBlob.value.id < blobsMade
      modifies this
      ensures Valid()
      ensures Snapshot() == old(Snapshot()).(
                leaked := old(leaked) + (if old(current).Some? then [old(current).value] else []),
                current := Some(old(isRecording)), recorder := Active, chunks := [],
                isRecording := true, isPaused := false, startTime := now)
    {
      leaked := leaked + (if current.Some? then [current.value] else []);
      current := Some(isRecording);
      recorder := Active;
      chunks := [];
      isRecording := true;
      isPaused := false;
      startTime := now;
    }

    /** The recorder's `dataavailable` handler: only non-empty data is kept. */
    method Chunk(c: Chunk)
      requires Valid()
      modifies this
      ensures Valid()
      ensures Snapshot() == if |c.data| > 0 then old(Snapshot()).(chunks := old(chunks) + [c])
                            else old(Snapshot())
    {
      if |c.data| > 0 {
        chunks := chunks + [c];
      }
    }

    /** `recorder.stop()` followed by its `stop` event. The recorder of the repository's test
        setup delivers that event on every `stop()`, whether or not it was still recording. */
    method FinishRecorder()
      requires recorder != NoRecorder
      modifies this
      ensures Snapshot() == Finished(old(Snapshot()), hasCallback)
      ensures audioBlob == Some(old(NextBlob()))
    {
      recorder := Inactive;
      var blob := NextBlob();
      blobsMade := blobsMade + 1;
      audioBlob := Some(blob);
      if hasCallback {
        completed := completed + [blob];
      }
    }

    /** `stopRecording`, as the render that calls it sees `isRecording`. */
    method Stop()
      requires Valid()
      modifies this
      ensures Valid()
      ensures Snapshot() == if old(isRecording) then Stopped(old(Snapshot()), hasCallback) else old(Snapshot())
      ensures !isRecording && !isPaused && !streamLive && current == None
      ensures old(isRecording) ==> recorder == Inactive
                                   && audioBlob == Some(old(NextBlob()))
                                   && completed == old(completed) + (if hasCallback then [old(NextBlob())] else [])
    {
      if recorder != NoRecorder && isRecording {
        FinishRecorder();
        streamLive := false;
        current := None;
        isRecording := false;
        isPaused := false;
      }
    }

    /** A `stopRecording` from an earlier render whose captured `isRecording` is `capturedRecording`:
        it reads the refs as they are now but the state as it was then. */
    method StaleStop(capturedRecording: bool)
      requires Valid()
      modifies this
      ensures Valid()
      ensures Snapshot() == if capturedRecording && old(recorder) != NoRecorder
                            then Stopped(old(Snapshot()), hasCallback) else old(Snapshot())
    {
      if recorder != NoRecorder && capturedRecording {
        FinishRecorder();
        streamLive := false;
        current := None;
        isRecording := false;
        isPaused := false;
      }
    }

    /** `pauseRecording` */
    method Pause()
      requires Valid()
      modifies this
      ensures Valid()
      ensures Snapshot() == if old(isRecording) && !old(isPaused)
                            then old(Snapshot()).(recorder := PausedRec, isPaused := true) else old(Snapshot())
    {
      if recorder != NoRecorder && isRecording && !isPaused {
        recorder := PausedRec;
        isPaused := true;
      }
    }

    /** `resumeRecording` */
    method Resume()
      requires Valid()
      modifies this
      ensures Valid()
      ensures Snapshot() == if old(isRecording) && old(isPaused)
                            then old(Snapshot()).(recorder := Active, isPaused := false) else old(Snapshot())
    {
      if recorder != NoRecorder && isRecording && isPaused {
        recorder := Active;
        isPaused := false;
      }
    }

    /** `resetRecording`: stop, then forget the blob, the duration and the error. */
    method Reset()
      requires Valid()
      modifies this
      ensures Valid()
      ensures Snapshot() == (if old(isRecording) then Stopped(old(Snapshot()), hasCallback) else old(Snapshot()))
                              .(audioBlob := None, duration := 0, error := None)
      ensures !isRecording && !isPaused && audioBlob == None && duration == 0 && error == None
      ensures completed == old(completed)
                           + (if old(isRecording) && hasCallback then [old(NextBlob())] else [])
    {
      Stop();
      audioBlob := None;
      duration := 0;
      error := None;
    }

    /** The commit after a render, as the hook is written: the `[isRecording, stopRecording]`
        effect re-runs whenever `isRecording` changes, and the cleanup of the previous run calls
        the `stopRecording` of the render it came from. After a stop, that one still sees
        `isRecording == true` and stops the recorder a second time. */
    method Commit()
      requires Valid()
      modifies this
      ensures Valid()
      ensures Snapshot() == (if old(committed) && !old(isRecording) then Stopped(old(Snapshot()), hasCallback)
                             else old(Snapshot())).(committed := old(isRecording))
      ensures old(committed) && !old(isRecording) ==> blobsMade == old(blobsMade) + 1
    {
      if committed && !isRecording {
        StaleStop(true);
      }
      committed := isRecording;
    }

    /** The commit as the cleanup's comment intends it ("cleanup on unmount"): a render only
        records what it committed and never stops anything. */
    method CommitIntended()
      requires Valid()
      modifies this
      ensures Valid()
      ensures Snapshot() == old(Snapshot()).(committed := old(isRecording))
    {
      committed := isRecording;
    }

    /** Unmounting runs the cleanup of the committed effect: when that render was recording, its
        `stopRecording` stops the recorder. */
    method Unmount()
      requires Valid()
      modifies this
      ensures Valid()
      ensures Snapshot() == if old(committed) then Stopped(old(Snapshot()), hasCallback) else old(Snapshot())
      ensures old(committed) ==> !isRecording && !streamLive && current == None
                                 && audioBlob == Some(old(NextBlob()))
    {
      if committed {
        StaleStop(true);
      }
    }

    /** The interval callback as intended: the counter shows whole seconds since the start, and
        reaching the maximum (when it is not 0) stops the recording. */
    method Tick(now: int)
      requires Valid()
      modifies this
      ensures Valid()
      ensures Snapshot() == Ticked(old(Snapshot()), maxDuration, hasCallback, now)
      ensures old(Ticking()) ==> duration == ElapsedSeconds(startTime, now)
      ensures old(Ticking()) && maxDuration != 0 && duration >= maxDuration ==> !isRecording && !streamLive
      ensures old(Ticking()) && maxDuration != 0 && duration >= maxDuration && old(isRecording) ==>
                audioBlob == Some(old(NextBlob()))
    {
      if Ticking() {
        var elapsed := ElapsedSeconds(startTime, now);
        duration := elapsed;
        if maxDuration != 0 && elapsed >= maxDuration {
          Stop();
        }
      }
    }

    /** The interval callback as the hook is written: every scheduled callback sets the counter,
        and at the maximum calls the `stopRecording` its own start captured. */
    method TickAsWritten(now: int)
      requires Valid()
      modifies this
      ensures Valid()
      ensures Snapshot() == TickedAsWritten(old(Snapshot()), maxDuration, hasCallback, now)
      ensures old(Ticking()) ==> duration == ElapsedSeconds(startTime, now)
      ensures !Armed(old(current), old(leaked)) ==> isRecording == old(isRecording)
    {
      if Ticking() {
        var elapsed := ElapsedSeconds(startTime, now);
        duration := elapsed;
        if maxDuration != 0 && elapsed >= maxDuration && Armed(current, leaked) {
          StaleStop(true);
        }
      }
    }
  }

  /** Some scheduled interval's `stopRecording` captured `isRecording == true`. */
  predicate Armed(current: Option<bool>, leaked: seq<bool>) {
    current == Some(true) || true in leaked
  }

  /** As written, a stop followed by the commit of the render it causes stops the recorder twice:
      two blobs of the same chunks, both handed to the callback, and the second one shown. */
  method StopAsWrittenStopsTwice(r: Recorder)
    requires r.Valid() && r.isRecording && r.committed
    modifies r
    ensures r.Valid() && !r.isRecording
    ensures r.blobsMade == old(r.blobsMade) + 2
    ensures r.audioBlob == Some(Blob(old(r.blobsMade) + 1, old(r.chunks), AudioMimeType))
    ensures r.completed == old(r.completed)
              + (if r.hasCallback then [old(r.NextBlob()), Blob(old(r.blobsMade) + 1, old(r.chunks), AudioMimeType)]
                 else [])
  {
    r.Stop();
    r.Commit();
  }

  /** With the intended commit, a stop makes exactly one blob and one callback. */
  method StopIntendedStopsOnce(r: Recorder)
    requires r.Valid() && r.isRecording && r.committed
    modifies r
    ensures r.Valid() && !r.isRecording
    ensures r.blobsMade == old(r.blobsMade) + 1 && r.audioBlob == Some(old(r.NextBlob()))
    ensures r.completed == old(r.completed) + (if r.hasCallback then [old(r.NextBlob())] else [])
  {
    r.Stop();
    r.CommitIntended();
  }

  /** Started from idle with a 10 s limit, as written the hook keeps recording past the limit:
      the interval's `stopRecording` saw `isRecording == false`. */
  method StaleAutoStopWitness() returns (recording: bool, shown: int)
    ensures recording && shown == 11
  {
    var r := new Recorder(Some(10), false);
    r.Start(true, 0);
    r.TickAsWritten(11_000);
    recording, shown := r.isRecording, r.duration;
  }

  /** The same session with the intended callback stops at the limit and keeps the audio. */
  method AutoStopIntended() returns (recording: bool, shown: int, kept: bool)
    ensures !recording && shown == 10 && kept
  {
    var r := new Recorder(Some(10), false);
    r.Start(true, 0);
    r.Chunk(Chunk([1, 2, 3]));
    assert r.chunks == [Chunk([1, 2, 3])];
    r.Tick(5_000);
    assert r.isRecording;
    r.Tick(10_000);
    recording, shown, kept := r.isRecording, r.duration, r.audioBlob.Some? && r.audioBlob.value.parts == [Chunk([1, 2, 3])];
  }

  /** The counter measures time since the start, so time spent paused is counted:
      5 s recording, 3 s paused and 2 s recording show 10 seconds. */
  method PausedTimeIsCounted() returns (shown: int)
    ensures shown == 10
  {
    var r := new Recorder(None, false);
    r.Start(true, 0);
    r.Tick(5_000);
    r.Pause();
    r.Tick(8_000);
    r.Resume();
    r.Tick(10_000);
    shown := r.duration;
  }

  /** With `maxDuration` 0 the limit is switched off (`maxDuration && ...` is falsy). */
  method ZeroMeansNoLimit() returns (recording: bool)
    ensures recording
  {
    var r := new Recorder(Some(0), false);
    r.Start(true, 0);
    r.Tick(1_000_000);
    recording := r.isRecording;
  }

  /** As written, recording with a callback and pressing Stop notifies the callback twice. */
  method StopAsWrittenNotifiesTwice() returns (notified: nat)
    ensures notified == 2
  {
    var r := new Recorder(None, true);
    r.Start(true, 0);
    r.Commit();
    r.Chunk(Chunk([7]));
    r.Stop();
    r.Commit();
    notified := |r.completed|;
  }

  /** With the intended commit the same session notifies the callback once. */
  method StopIntendedNotifiesOnce() returns (notified: nat)
    ensures notified == 1
  {
    var r := new Recorder(None, true);
    r.Start(true, 0);
    r.CommitIntended();
    r.Chunk(Chunk([7]));
    r.Stop();
    r.CommitIntended();
    notified := |r.completed|;
  }

  /** As written, resetting while recording puts a blob back on screen: the commit after the reset
      stops the recorder again and shows what it assembles. */
  method ResetAsWrittenShowsBlob() returns (notified: nat, blobShown: bool)
    ensures notified == 2 && blobShown
  {
    var r := new Recorder(None, true);
    r.Start(true, 0);
    r.Commit();
    r.Chunk(Chunk([7]));
    r.Reset();
    r.Commit();
    notified, blobShown := |r.completed|, r.audioBlob.Some?;
  }

  /** With the intended commit, resetting while recording delivers the audio to
      `onRecordingComplete` once and leaves no blob on screen. */
  method ResetIntendedNotifiesOnce() returns (notified: nat, blobShown: bool)
    ensures notified == 1 && !blobShown
  {
    var r := new Recorder(None, true);
    r.Start(true, 0);
    r.CommitIntended();
    r.Chunk(Chunk([7]));
    r.Reset();
    r.CommitIntended();
    notified, blobShown := |r.completed|, r.audioBlob.Some?;
  }

  /** A failed microphone request leaves the hook idle with the permission error. */
  method DeniedMicrophone() returns (recording: bool, err: Option<string>)
    ensures !recording && err == Some(PermissionError)
  {
    var r := new Recorder(None, false);
    r.Start(false, 0);
    recording, err := r.isRecording, r.error;
  }
}
