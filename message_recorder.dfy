/** The voice-message recorder component (`MessageRecorder`): which controls it shows for the
    recording hook's state, the remaining-time warning, and the playback element it builds for a
    finished recording, whose object URL it revokes when the recording changes or the component
    goes away. */
module MessageRecorder {
  import opened Wrappers
  import opened AudioEngine
  import Utils

  /** The component's `maxDuration` prop defaults to 300 seconds. */
  const DefaultMaxDurationProp := 300

  /** Seconds before the limit at which the warning appears. */
  const WarningWindow := 30

  // ---------------------------------------------------------------- what is rendered

  /** The parts of the markup that appear or not. */
  datatype Controls = Controls(
    recordingSection: bool,
    startButton: bool,
    pauseAndStop: bool,
    resumeAndStop: bool,
    playbackSection: bool,
    waveform: bool)

  function ControlsFor(isRecording: bool, isPaused: bool, hasBlob: bool): (c: Controls)
    ensures c.recordingSection <==> !hasBlob
    ensures c.playbackSection <==> hasBlob
    ensures c.startButton <==> !hasBlob && !isRecording
    ensures c.pauseAndStop <==> !hasBlob && isRecording && !isPaused
    ensures c.resumeAndStop <==> !hasBlob && isRecording && isPaused
    ensures c.waveform <==> isRecording && !isPaused
  {
    Controls(
      recordingSection := !hasBlob,
      startButton := !hasBlob && !isRecording,
      pauseAndStop := !hasBlob && isRecording && !isPaused,
      resumeAndStop := !hasBlob && isRecording && isPaused,
      playbackSection := hasBlob,
      waveform := isRecording && !isPaused)
  }

  function Count(b: bool): nat { if b then 1 else 0 }

  /** Exactly one group of buttons is on screen: Start, Pause and Stop, Resume and Stop, or the
      playback buttons; and Stop is offered exactly while recording without a blob. */
  lemma OneButtonGroup(isRecording: bool, isPaused: bool, hasBlob: bool)
    ensures var c := ControlsFor(isRecording, isPaused, hasBlob);
            Count(c.startButton) + Count(c.pauseAndStop) + Count(c.resumeAndStop) + Count(c.playbackSection) == 1
    ensures var c := ControlsFor(isRecording, isPaused, hasBlob);
            (c.pauseAndStop || c.resumeAndStop) <==> isRecording && !hasBlob
  {
  }

  /** The status line in the recording section. */
  function StatusText(isRecording: bool, isPaused: bool): (t: string)
    ensures isRecording && isPaused <==> t == "Paused"
    ensures isRecording && !isPaused <==> t == "Recording..."
    ensures !isRecording <==> t == "Tap to record a voice message"
  {
    if isRecording then (if isPaused then "Paused" else "Recording...") else "Tap to record a voice message"
  }

  /** The remaining-time warning of the recording section: the seconds left, shown once
      `duration >= maxDuration - 30`. */
  function Warning(duration: int, maxDuration: int, hasBlob: bool): (w: Option<int>)
    ensures w.Some? <==> !hasBlob && duration >= maxDuration - WarningWindow
    ensures w.Some? ==> w.value == maxDuration - duration && w.value <= WarningWindow
  {
    if !hasBlob && duration >= maxDuration - WarningWindow then Some(maxDuration - duration) else None
  }

  /** The duration as the component shows it, `m:ss` (its local `formatTime` has the library's body);
      it reads back as the seconds it shows. */
  function ShownDuration(seconds: nat): (r: string)
    ensures Utils.ParseClock(r) == Some(seconds)
  {
    Utils.FormatTimeRoundTrip(seconds);
    Utils.FormatTime(seconds)
  }

  // ---------------------------------------------------------------- the component

  /** The `HTMLAudioElement`: its object URL, whether it plays, and its position. */
  datatype Playback = Playback(url: nat, playing: bool, position: int)

  /** The component's own state, refs and the object URLs it has dealt with. */
  datatype Screen = Screen(
    isPlaying: bool, element: Option<Playback>, shownBlob: Option<Blob>, liveUrl: Option<nat>,
    created: set<nat>, revoked: set<nat>, nextUrl: nat, mounted: bool)

  /** The playback effect on `[audioBlob]` run for `blob`: the old element is paused and its URL
      revoked, then a blob gets a new URL and a fresh paused element. */
  function Shown(s: Screen, blob: Option<Blob>): Screen {
    var cleaned :=
      if s.liveUrl.Some? && s.element.Some?
      then s.(element := Some(s.element.value.(playing := false)),
              revoked := s.revoked + {s.liveUrl.value}, liveUrl := None)
      else s;
    var made :=
      if blob.Some?
      then cleaned.(nextUrl := cleaned.nextUrl + 1, created := cleaned.created + {cleaned.nextUrl},
                    element := Some(Playback(cleaned.nextUrl, false, 0)), liveUrl := Some(cleaned.nextUrl))
      else cleaned;
    made.(shownBlob := blob)
  }

  class RecorderView {
    const engine: Recorder
    const maxDuration: int

    var isPlaying: bool
    var element: Option<Playback>

    /** The blob the playback effect last ran for, and the URL its cleanup will revoke. */
    var shownBlob: Option<Blob>
    var liveUrl: Option<nat>

    /** Object URLs created and revoked so far; `nextUrl` is larger than any created. */
    var created: set<nat>
    var revoked: set<nat>
    var nextUrl: nat
    var mounted: bool

    /** What holds between any two steps of a render and its effects. */
    ghost predicate Consistent()
      reads this, engine
    {
      && engine.Valid()
      && engine.maxDuration == maxDuration
      && !engine.hasCallback
      && (forall u :: u in created ==> u < nextUrl)
      && revoked <= created
      && (liveUrl.Some? ==> liveUrl.value in created && liveUrl.value !in revoked)
      && (forall u :: u in created && Some(u) != liveUrl ==> u in revoked)
      && (liveUrl.Some? ==> element.Some? && element.value.url == liveUrl.value)
      && (mounted ==> (liveUrl.Some? <==> shownBlob.Some?))
      && (!mounted ==> liveUrl.None?)
    }

    /** What holds once a render's effects have all run: the hook's effect has committed the
        current `isRecording`, and a blob is shown only when not recording. */
    ghost predicate Valid()
      reads this, engine
    {
      && Consistent()
      && engine.committed == engine.isRecording
      && (engine.audioBlob.Some? ==> !engine.isRecording)
    }

    function View(): Screen
      reads this
    {
      Screen(isPlaying, element, shownBlob, liveUrl, created, revoked, nextUrl, mounted)
    }

    /** The effect has run for the hook's current blob. */
    predicate Synced()
      reads this, engine
    {
      shownBlob == engine.audioBlob
    }

    /** The playback Play button always has an element to play. */
    lemma PlaybackHasElement()
      requires Valid() && Synced() && mounted && engine.audioBlob.Some?
      ensures element.Some? && element.value.url !in revoked
    {
    }

    constructor (maxDurationProp: Option<int>)
      ensures Valid() && Synced() && mounted
      ensures maxDuration == maxDurationProp.GetOr(DefaultMaxDurationProp)
      ensures View() == Screen(false, None, None, None, {}, {}, 0, true)
      ensures !engine.isRecording && engine.audioBlob == None && engine.duration == 0
      ensures fresh(engine)
    {
      var m := maxDurationProp.GetOr(DefaultMaxDurationProp);
      maxDuration := m;
      engine := new Recorder(Some(m), false);
      isPlaying := false;
      element := None;
      shownBlob := None;
      liveUrl := None;
      created := {};
      revoked := {};
      nextUrl := 0;
      mounted := true;
    }

    /** The playback effect on `[audioBlob]`: when the blob changes, pause the old element and
        revoke its URL, then, if there is a blob, create a URL and a fresh paused element for it.
        When the blob goes away the old element stays in state. */
    method Sync()
      requires Consistent() && mounted
      modifies this
      ensures Consistent() && Synced() && mounted
      ensures View() == if old(Synced()) then old(View()) else Shown(old(View()), engine.audioBlob)
      ensures old(Synced()) ==> element == old(element) && created == old(created) && revoked == old(revoked)
      ensures !old(Synced()) && engine.audioBlob.Some? ==>
                element == Some(Playback(old(nextUrl), false, 0)) && created == old(created) + {old(nextUrl)}
                && nextUrl == old(nextUrl) + 1
      ensures !old(Synced()) && old(liveUrl).Some? ==> old(liveUrl).value in revoked
    {
      if engine.audioBlob != shownBlob {
        if liveUrl.Some? {
          element := Some(element.value.(playing := false));
          revoked := revoked + {liveUrl.value};
          liveUrl := None;
        }
        if engine.audioBlob.Some? {
          var url := nextUrl;
          nextUrl := nextUrl + 1;
          created := created + {url};
          element := Some(Playback(url, false, 0));
          liveUrl := Some(url);
        }
        shownBlob := engine.audioBlob;
      }
    }

    /** The Start Recording button, shown only without a blob and while not recording. */
    method ClickStart(granted: bool, now: int)
      requires Valid() && Synced() && mounted
      requires ControlsFor(engine.isRecording, engine.isPaused, engine.audioBlob.Some?).startButton
      modifies this, engine
      ensures Valid() && Synced() && mounted
      ensures engine.Snapshot() == if granted then Started(old(engine.Snapshot()), now).(committed := true)
                                   else old(engine.Snapshot()).(error := Some(PermissionError))
      ensures View() == old(View())
      ensures granted ==> ControlsFor(engine.isRecording, engine.isPaused, engine.audioBlob.Some?).pauseAndStop
      ensures !granted ==> ControlsFor(engine.isRecording, engine.isPaused, engine.audioBlob.Some?).startButton
                           && engine.error == Some(PermissionError)
    {
      engine.Start(granted, now);
      engine.Commit();
      Sync();
    }

    /** The Pause button. */
    method ClickPause()
      requires Valid() && Synced() && mounted
      requires ControlsFor(engine.isRecording, engine.isPaused, engine.audioBlob.Some?).pauseAndStop
      modifies this, engine
      ensures Valid() && Synced() && mounted
      ensures engine.Snapshot() == old(engine.Snapshot()).(recorder := PausedRec, isPaused := true)
      ensures View() == old(View())
      ensures ControlsFor(engine.isRecording, engine.isPaused, engine.audioBlob.Some?).resumeAndStop
    {
      engine.Pause();
      Sync();
    }

    /** The Resume button. */
    method ClickResume()
      requires Valid() && Synced() && mounted
      requires ControlsFor(engine.isRecording, engine.isPaused, engine.audioBlob.Some?).resumeAndStop
      modifies this, engine
      ensures Valid() && Synced() && mounted
      ensures engine.Snapshot() == old(engine.Snapshot()).(recorder := Active, isPaused := false)
      ensures View() == old(View())
      ensures ControlsFor(engine.isRecording, engine.isPaused, engine.audioBlob.Some?).pauseAndStop
    {
      engine.Resume();
      Sync();
    }

    /** Either Stop button. The render after the stop shows the blob; its commit runs the hook's
        effect cleanup, which stops the recorder a second time, and the next render shows that
        second blob: two URLs are created and the first is revoked at once. */
    method ClickStop()
      requires Valid() && Synced() && mounted
      requires ControlsFor(engine.isRecording, engine.isPaused, engine.audioBlob.Some?).pauseAndStop
               || ControlsFor(engine.isRecording, engine.isPaused, engine.audioBlob.Some?).resumeAndStop
      modifies this, engine
      ensures Valid() && Synced() && mounted
      ensures var first := Stopped(old(engine.Snapshot()), false);
              engine.Snapshot() == Stopped(first, false).(committed := false)
              && View() == Shown(Shown(old(View()), first.audioBlob), engine.audioBlob)
      ensures !engine.isRecording && engine.audioBlob.Some? && engine.audioBlob.value.parts == old(engine.chunks)
      ensures ControlsFor(engine.isRecording, engine.isPaused, engine.audioBlob.Some?).playbackSection
      ensures element == Some(Playback(old(nextUrl) + 1, false, 0))
      ensures created == old(created) + {old(nextUrl), old(nextUrl) + 1} && nextUrl == old(nextUrl) + 2
      ensures revoked == old(revoked) + {old(nextUrl)}
    {
      engine.Stop();
      Sync();
      engine.Commit();
      Sync();
    }

    /** The recorder's data event. */
    method DataAvailable(c: Chunk)
      requires Valid() && Synced() && mounted
      modifies engine
      ensures Valid() && Synced() && mounted
      ensures engine.Snapshot() == if |c.data| > 0 then old(engine.Snapshot()).(chunks := old(engine.chunks) + [c])
                                   else old(engine.Snapshot())
      ensures View() == old(View())
    {
      engine.Chunk(c);
    }

    /** The hook's interval with the intended automatic stop (the ticker as written never stops).
        A stop is followed by the same second stop as the Stop button's. */
    method Tick(now: int)
      requires Valid() && Synced() && mounted
      modifies this, engine
      ensures Valid() && Synced() && mounted
      ensures var t := Ticked(old(engine.Snapshot()), maxDuration, false, now);
              engine.Snapshot() == if old(engine.isRecording) && !t.isRecording
                                   then Stopped(t, false).(committed := false) else t
      ensures old(engine.Ticking()) ==> engine.duration == ElapsedSeconds(engine.startTime, now)
      ensures engine.isRecording && maxDuration != 0 ==> engine.duration < maxDuration
      ensures old(engine.isRecording) && !engine.isRecording ==>
                engine.audioBlob.Some? && engine.audioBlob.value.parts == old(engine.chunks)
                && element == Some(Playback(old(nextUrl) + 1, false, 0))
                && created == old(created) + {old(nextUrl), old(nextUrl) + 1}
      ensures !(old(engine.isRecording) && !engine.isRecording) ==> View() == old(View())
    {
      engine.Tick(now);
      Sync();
      engine.Commit();
      Sync();
    }

    /** `handlePlayPause`: nothing without an element, otherwise play or pause it. */
    method PlayPause()
      requires Valid()
      modifies this
      ensures Valid()
      ensures View() == if old(element).None? then old(View())
                        else old(View()).(isPlaying := !old(isPlaying),
                                          element := Some(old(element).value.(playing := !old(isPlaying))))
    {
      if element.None? {
        return;
      }
      if isPlaying {
        element := Some(element.value.(playing := false));
        isPlaying := false;
      } else {
        element := Some(element.value.(playing := true));
        isPlaying := true;
      }
    }

    /** The element's `ended` event. */
    method Ended()
      requires Valid()
      modifies this
      ensures Valid()
      ensures View() == old(View()).(isPlaying := false,
                                     element := if old(element).Some? then Some(old(element).value.(playing := false))
                                                else None)
    {
      isPlaying := false;
      if element.Some? {
        element := Some(element.value.(playing := false));
      }
    }

    /** `handleSend`: the arguments `onSend` is called with, when there is a blob. */
    function SendArguments(): (r: Option<(Blob, int)>)
      reads this, engine
      ensures r.Some? <==> engine.audioBlob.Some?
      ensures r.Some? ==> r.value.0 == engine.audioBlob.value && r.value.1 == engine.duration
    {
      if engine.audioBlob.Some? then Some((engine.audioBlob.value, engine.duration)) else None
    }

    /** `handleReset`, the Re-record button of the playback section: reset the hook, stop playing
        and rewind the element; the effect then revokes the URL of the discarded blob. */
    method Reset()
      requires Valid() && Synced() && mounted && engine.audioBlob.Some?
      modifies this, engine
      ensures Valid() && Synced() && mounted
      ensures engine.Snapshot() == old(engine.Snapshot()).(audioBlob := None, duration := 0, error := None)
      ensures View() == old(View()).(isPlaying := false,
                                     element := Some(old(element).value.(playing := false, position := 0)),
                                     shownBlob := None, liveUrl := None,
                                     revoked := old(revoked) + {old(liveUrl).value})
      ensures created == revoked
      ensures ControlsFor(engine.isRecording, engine.isPaused, engine.audioBlob.Some?).startButton
    {
      engine.Reset();
      engine.Commit();
      isPlaying := false;
      if element.Some? {
        element := Some(element.value.(playing := false, position := 0));
      }
      Sync();
    }

    /** Unmounting: the cleanup of the hook's committed effect stops a running recording, and the
        playback effect's cleanup pauses the element and revokes its URL, so no URL the component
        created stays alive. */
    method Unmount()
      requires Valid() && Synced() && mounted
      modifies this, engine
      ensures Consistent() && !mounted
      ensures engine.Snapshot() == if old(engine.isRecording) then Stopped(old(engine.Snapshot()), false)
                                   else old(engine.Snapshot())
      ensures View() == old(View()).(mounted := false, liveUrl := None,
                                     element := if old(liveUrl).Some? then Some(old(element).value.(playing := false))
                                                else old(element),
                                     revoked := old(created))
      ensures !engine.isRecording && revoked == created
    {
      engine.Unmount();
      if liveUrl.Some? {
        element := Some(element.value.(playing := false));
        revoked := revoked + {liveUrl.value};
        liveUrl := None;
      }
      mounted := false;
    }
  }

  /** One take from the Start button: record a chunk and stop; the stop creates two URLs. */
  method Take(v: RecorderView, now: int)
    requires v.Valid() && v.Synced() && v.mounted
    requires ControlsFor(v.engine.isRecording, v.engine.isPaused, v.engine.audioBlob.Some?).startButton
    modifies v, v.engine
    ensures v.Valid() && v.Synced() && v.mounted && v.engine.audioBlob.Some?
    ensures v.created == old(v.created) + {old(v.nextUrl), old(v.nextUrl) + 1} && v.nextUrl == old(v.nextUrl) + 2
  {
    v.ClickStart(true, now);
    v.DataAvailable(Chunk([1]));
    v.ClickStop();
  }

  /** Record, stop, re-record and record again: each stop creates two URLs, and after unmounting
      all four are revoked. */
  method TwoTakes() returns (urls: set<nat>, revokedUrls: set<nat>)
    ensures |urls| == 4 && revokedUrls == urls
  {
    var v := new RecorderView(None);
    Take(v, 0);
    assert v.created == {0, 1};
    v.Reset();
    Take(v, 5_000);
    assert v.created == {0, 1} + {2, 3};
    v.Unmount();
    assert |{0, 1, 2, 3}| == 4;
    urls, revokedUrls := v.created, v.revoked;
  }
}
