/**
 * The playback controller of the player component: its state fields, the
 * one live audio handle, the two effects that React runs after a render,
 * the five user commands, and the events the handle delivers.
 *
 * The correctness-critical rule is that a handle replaced on a track change
 * has its listeners removed (and is paused) first, so its events can no
 * longer touch the state. `Controller.Valid()` keeps this as an invariant:
 * every handle the controller ever created, other than the live one, is
 * unsubscribed and paused; and each event method proves that an event from
 * such a handle leaves the state unchanged.
 */
module Playback {
  import opened TimeFormat
  import opened Transport

  /** An audio element. `subscribed` records whether the controller's three
   *  listeners (loadeddata, timeupdate, ended) are registered on it. The
   *  position and the duration are written by the browser; the controller
   *  only writes the position when seeking. */
  class Audio {
    const src: string
    var volume: real
    var currentTime: real
    var duration: Time
    var paused: bool
    var subscribed: bool

    /** `new Audio(src)`: not yet loaded, at position 0, paused, full volume. */
    constructor (src: string)
      ensures this.src == src
      ensures volume == 1.0 && currentTime == 0.0 && duration == NaN
      ensures paused && !subscribed
    {
      this.src := src;
      volume := 1.0;
      currentTime := 0.0;
      duration := NaN;
      paused := true;
      subscribed := false;
    }
  }

  /** Which call site issued a `play()`: the loadeddata handler, whose
   *  rejection is only logged, or the play/pause effect, whose rejection
   *  clears `isPlaying`. */
  datatype Origin = LoadedDataHandler | PlayPauseEffect

  /** A `play()` promise that has not settled yet. */
  datatype PlayRequest = PlayRequest(handle: Audio, origin: Origin)

  /** Everything besides the state fields: the audio ref, the unsettled play
   *  promises and the dependency values React remembers for each effect. */
  datatype Wiring = Wiring(
    audio: Audio?,
    pending: seq<PlayRequest>,
    trackDep: int,
    playingDep: bool,
    readyDep: bool)

  class Controller {
    const playlist: seq<Track>

    // the useState fields
    var currentTrackIndex: int
    var isPlaying: bool
    var currentTime: real
    var duration: Time
    var volume: real
    var isReady: bool

    /** `audioRef.current`; null until the first render's effects have run. */
    var audio: Audio?
    /** play() promises issued and not yet settled, oldest first. */
    var pending: seq<PlayRequest>
    /** The dependencies each effect last ran with: the track effect's
     *  `[currentTrackIndex]` and the play/pause effect's `[isPlaying, isReady]`. */
    var trackDep: int
    var playingDep: bool
    var readyDep: bool

    /** Every handle this controller has created. */
    ghost var handles: set<Audio>

    /** The controller's invariant. Besides the ranges of the index and the
     *  volume, it keeps the rule that makes track changes safe: every handle
     *  other than the live one has had its listeners removed and is paused. */
    ghost predicate Valid()
      reads this, handles
      ensures Valid() ==> forall h :: h in handles ==>
        (h.subscribed <==> h == audio) && (h != audio ==> h.paused)
    {
      |playlist| >= 1 &&
      0 <= currentTrackIndex < |playlist| &&
      0.0 <= volume <= 1.0 &&
      (audio != null ==>
        audio in handles && audio.subscribed && audio.volume == volume &&
        0 <= trackDep < |playlist| && audio.src == playlist[trackDep].src) &&
      (forall h :: h in handles && h != audio ==> !h.subscribed && h.paused) &&
      (forall r :: r in pending ==> r.handle in handles)
    }

    function State(): Snapshot
      reads this
    {
      Snapshot(currentTrackIndex, isPlaying, isReady, currentTime, duration, volume)
    }

    ghost function Wires(): Wiring
      reads this
    {
      Wiring(audio, pending, trackDep, playingDep, readyDep)
    }

    /** The component's initial useState values, before any effect has run. */
    constructor (playlist: seq<Track>)
      requires |playlist| >= 1
      ensures Valid()
      ensures this.playlist == playlist && State() == Initial()
      ensures audio == null && pending == [] && handles == {}
    {
      this.playlist := playlist;
      currentTrackIndex := 0;
      isPlaying := false;
      currentTime := 0.0;
      duration := Num(0.0);
      volume := 0.7;
      isReady := false;
      audio := null;
      pending := [];
      trackDep, playingDep, readyDep := 0, false, false;
      handles := {};
    }

    // -------------------------------------------------------------------
    // User commands

    /** The play/pause button flips the intent to play and nothing else. */
    method PlayPause()
      requires Valid()
      modifies this
      ensures Valid() && handles == old(handles)
      ensures State() == Transport.PlayPause(old(State()))
      ensures Wires() == old(Wires())
    {
      isPlaying := !isPlaying;
    }

    /** The "next" button: the following track (wrapping), and play. */
    method NextSong()
      requires Valid()
      modifies this
      ensures Valid() && handles == old(handles)
      ensures State() == Next(old(State()), |playlist|)
      ensures Wires() == old(Wires())
    {
      currentTrackIndex := (currentTrackIndex + 1) % |playlist|;
      isPlaying := true;
    }

    /** The "previous" button: the preceding track (wrapping), and play. */
    method PrevSong()
      requires Valid()
      modifies this
      ensures Valid() && handles == old(handles)
      ensures State() == Prev(old(State()), |playlist|)
      ensures Wires() == old(Wires())
    {
      currentTrackIndex := (currentTrackIndex - 1 + |playlist|) % |playlist|;
      isPlaying := true;
    }

    /** The timeline slider: without a handle nothing happens; otherwise the
     *  handle and `currentTime` both move to t. No clamping to the duration. */
    method Seek(t: real)
      requires Valid()
      modifies this, audio
      ensures Valid() && handles == old(handles) && Wires() == old(Wires())
      ensures audio == null ==> State() == old(State())
      ensures audio != null ==> State() == old(State()).(currentTime := t)
      ensures audio != null ==>
        audio.currentTime == t && audio.volume == old(audio.volume) &&
        audio.paused == old(audio.paused) && audio.subscribed == old(audio.subscribed) &&
        audio.duration == old(audio.duration)
    {
      if audio == null {
        return;
      }
      audio.currentTime := t;
      currentTime := t;
    }

    /** The volume slider (range 0 to 1): `volume` always, and the handle's
     *  volume when there is one. */
    method VolumeChange(v: real)
      requires Valid() && 0.0 <= v <= 1.0
      modifies this, audio
      ensures Valid() && handles == old(handles) && Wires() == old(Wires())
      ensures State() == old(State()).(volume := v)
      ensures audio != null ==>
        audio.volume == v && audio.currentTime == old(audio.currentTime) &&
        audio.paused == old(audio.paused) && audio.subscribed == old(audio.subscribed) &&
        audio.duration == old(audio.duration)
    {
      volume := v;
      if audio != null {
        audio.volume := v;
      }
    }

    // -------------------------------------------------------------------
    // Effects

    /** The track effect: the previous run's cleanup removes the listeners
     *  from the old handle and pauses it; then the body pauses it again,
     *  drops it, and creates the handle for the current track with the
     *  current volume and the three listeners registered. */
    method InstallAudio()
      requires Valid()
      modifies this, audio
      ensures Valid() && State() == old(State())
      ensures audio != null && fresh(audio) && handles == old(handles) + {audio}
      ensures audio.src == playlist[currentTrackIndex].src && audio.volume == volume
      ensures audio.paused && audio.currentTime == 0.0 && audio.duration == NaN
      ensures old(audio) != null ==> !old(audio).subscribed && old(audio).paused
      ensures old(audio) != null ==>
        old(audio).volume == old(audio.volume) && old(audio).currentTime == old(audio.currentTime) &&
        old(audio).duration == old(audio.duration)
      ensures Wires() == old(Wires()).(audio := audio, trackDep := currentTrackIndex)
    {
      if audio != null {
        // cleanup of the previous run
        audio.subscribed := false;
        audio.paused := true;
        // start of this run
        audio.paused := true;
        audio := null;
      }
      var a := new Audio(playlist[currentTrackIndex].src);
      a.volume := volume;
      a.subscribed := true;
      audio := a;
      handles := handles + {a};
      trackDep := currentTrackIndex;
    }

    /** The play/pause effect: nothing without a handle or before `isReady`;
     *  otherwise `play()` when `isPlaying` and `pause()` when not. */
    method SyncPlayback()
      requires Valid()
      modifies this, audio
      ensures Valid() && State() == old(State()) && handles == old(handles)
      ensures audio == old(audio) && trackDep == old(trackDep)
      ensures playingDep == old(playingDep) && readyDep == old(readyDep)
      ensures audio == null || !isReady ==> pending == old(pending)
      ensures audio != null && !isReady ==> audio.paused == old(audio.paused)
      ensures audio != null && isReady && isPlaying ==>
        !audio.paused && pending == old(pending) + [PlayRequest(audio, PlayPauseEffect)]
      ensures audio != null && isReady && !isPlaying ==> audio.paused && pending == old(pending)
      ensures audio != null ==> audio.volume == old(audio.volume) && audio.subscribed == old(audio.subscribed)
      ensures audio != null ==>
        audio.currentTime == old(audio.currentTime) && audio.duration == old(audio.duration)
    {
      if audio == null || !isReady {
        return;
      }
      if isPlaying {
        audio.paused := false;
        pending := pending + [PlayRequest(audio, PlayPauseEffect)];
      } else {
        audio.paused := true;
      }
    }

    /** What React does after a render: the track effect runs on the first
     *  render and whenever `currentTrackIndex` differs from the value it last
     *  ran with; then the play/pause effect runs on the first render and
     *  whenever `isPlaying` or `isReady` differs from its last values. */
    method CommitEffects()
      requires Valid()
      modifies this, audio
      ensures Valid() && State() == old(State())
      ensures audio != null && trackDep == currentTrackIndex
      ensures playingDep == isPlaying && readyDep == isReady
      ensures audio.src == playlist[currentTrackIndex].src
      ensures old(audio) == null || old(trackDep) != currentTrackIndex ==>
        fresh(audio) && handles == old(handles) + {audio}
      ensures old(audio) != null && old(trackDep) != currentTrackIndex ==>
        !old(audio).subscribed && old(audio).paused
      ensures old(audio) != null && old(trackDep) == currentTrackIndex ==>
        audio == old(audio) && handles == old(handles)
      ensures
        var rerun := old(audio) == null || old(playingDep) != isPlaying || old(readyDep) != isReady;
        pending == old(pending) + (if rerun && isReady && isPlaying then [PlayRequest(audio, PlayPauseEffect)] else [])
      ensures
        var rerun := old(audio) == null || old(playingDep) != isPlaying || old(readyDep) != isReady;
        old(audio) == null || old(trackDep) != currentTrackIndex ==>
          audio.currentTime == 0.0 && audio.duration == NaN && audio.paused == !(rerun && isReady && isPlaying)
      ensures
        var rerun := old(playingDep) != isPlaying || old(readyDep) != isReady;
        old(audio) != null && old(trackDep) == currentTrackIndex ==>
          audio.currentTime == old(audio.currentTime) && audio.duration == old(audio.duration) &&
          audio.paused == (if rerun && isReady then !isPlaying else old(audio.paused))
    {
      var firstRender := audio == null;
      var trackChanged := firstRender || currentTrackIndex != trackDep;
      var syncChanged := firstRender || isPlaying != playingDep || isReady != readyDep;
      if trackChanged {
        InstallAudio();
      }
      if syncChanged {
        SyncPlayback();
      }
      playingDep, readyDep := isPlaying, isReady;
    }

    // -------------------------------------------------------------------
    // Events delivered by a handle

    /** `loadeddata` on handle a. On the live handle: take its duration, mark
     *  ready, and call `play()` exactly when `isPlaying`. On a replaced
     *  handle the listener is gone and nothing changes. */
    method LoadedData(a: Audio)
      requires Valid() && a in handles
      modifies this, a
      ensures Valid() && handles == old(handles)
      ensures audio == old(audio) && trackDep == old(trackDep)
      ensures playingDep == old(playingDep) && readyDep == old(readyDep)
      ensures a.volume == old(a.volume) && a.currentTime == old(a.currentTime) && a.duration == old(a.duration)
      ensures a != audio ==> State() == old(State()) && pending == old(pending) && a.paused == old(a.paused)
      ensures a == audio ==> State() == old(State()).(duration := a.duration, isReady := true)
      ensures a == audio ==> a.paused == (old(a.paused) && !isPlaying)
      ensures a == audio ==>
        pending == old(pending) + (if isPlaying then [PlayRequest(a, LoadedDataHandler)] else [])
    {
      if a.subscribed {
        duration := a.duration;
        isReady := true;
        if isPlaying {
          a.paused := false;
          pending := pending + [PlayRequest(a, LoadedDataHandler)];
        }
      }
    }

    /** `timeupdate` on handle a: the live handle's position is copied into
     *  `currentTime`; a replaced handle changes nothing. */
    method TimeUpdate(a: Audio)
      requires Valid() && a in handles
      modifies this
      ensures Valid() && handles == old(handles) && Wires() == old(Wires())
      ensures a != audio ==> State() == old(State())
      ensures a == audio ==> State() == old(State()).(currentTime := a.currentTime)
    {
      if a.subscribed {
        currentTime := a.currentTime;
      }
    }

    /** `ended` on handle a: on the live handle exactly the "next" command; a
     *  replaced handle changes nothing. */
    method Ended(a: Audio)
      requires Valid() && a in handles
      modifies this
      ensures Valid() && handles == old(handles) && Wires() == old(Wires())
      ensures a != audio ==> State() == old(State())
      ensures a == audio ==> State() == Next(old(State()), |playlist|)
    {
      if a.subscribed {
        NextSong();
      }
    }

    /** The k-th unsettled `play()` promise settles. A resolution changes no
     *  state. A rejection clears `isPlaying` when the play/pause effect issued
     *  the call, whether or not its handle is still the live one; the
     *  loadeddata handler's rejections are only logged. */
    method PlaySettled(k: nat, resolved: bool)
      requires Valid() && k < |pending|
      modifies this
      ensures Valid() && handles == old(handles)
      ensures audio == old(audio) && trackDep == old(trackDep)
      ensures playingDep == old(playingDep) && readyDep == old(readyDep)
      ensures pending == old(pending[..k] + pending[k + 1..])
      ensures State() == if !resolved && old(pending[k].origin) == PlayPauseEffect
        then old(State()).(isPlaying := false) else old(State())
    {
      var r := pending[k];
      pending := pending[..k] + pending[k + 1..];
      if !resolved && r.origin == PlayPauseEffect {
        isPlaying := false;
      }
    }
  }

  // ---------------------------------------------------------------------
  // Two runs of the controller

  /** After a track change, every event from the replaced handle is ignored. */
  method StaleEventsIgnored() {
    var c := new Controller(APP_PLAYLIST);
    c.CommitEffects();
    var first := c.audio;
    c.NextSong();
    c.CommitEffects();
    assert c.currentTrackIndex == 1 && c.audio != first && c.isPlaying;
    assert c.audio.src == "/assets/bambi.mp3";
    var s := c.State();
    c.LoadedData(first);
    c.TimeUpdate(first);
    c.Ended(first);
    assert c.State() == s;
  }

  /** A rejected `play()` from the play/pause effect clears `isPlaying` even
   *  after its handle has been replaced by a track change. */
  method StaleRejectionPauses() {
    var c := new Controller(APP_PLAYLIST);
    c.CommitEffects();
    var first := c.audio;
    c.LoadedData(first);
    c.CommitEffects();
    assert c.isReady && c.pending == [];
    c.PlayPause();
    c.CommitEffects();
    assert c.pending == [PlayRequest(first, PlayPauseEffect)];
    c.NextSong();
    c.CommitEffects();
    assert c.audio != first && c.isPlaying && c.pending == [PlayRequest(first, PlayPauseEffect)];
    c.PlaySettled(0, false);
    assert !c.isPlaying && c.currentTrackIndex == 1;
  }
}
