# Playback controller of the church-playlist music player

The player is a single React component, `App`. It shows one track of a fixed
playlist and offers previous/play-pause/next buttons, a seek timeline and a
volume slider. Behind the buttons sits a small state machine. Its state fields
are `currentTrackIndex`, `isPlaying`, `isReady`, `currentTime`, `duration` and
`volume`, and it owns one live `HTMLAudioElement`, the audio ref. Two effects
run after each render that changed their dependencies:

- the track effect replaces the audio element whenever the track changes;
- the play/pause effect calls `play()` or `pause()` on it.

The element reports back through `loadeddata`, `timeupdate` and `ended`
listeners and through the promise returned by `play()`. A pure formatter,
`formatTime`, produces the `m:ss` labels under the timeline.

The project has three modules:

- `TimeFormat` (`time_format.dfy`): `formatTime`, computed with JavaScript's
  `Math.floor`, truncating `%`, integer `toString` and `padStart(2, "0")`.
  Its partner is `ParseClock`, a reader that turns a label back into whole
  seconds. `ClockRoundTrip` proves that every non-negative time reads back as
  its whole seconds. Lemmas also fix the seconds field at two digits below 60
  and prove concrete labels: NaN, 0, and every time in [65, 66), [599, 600)
  and [754, 755).
- `Transport` (`transport.dfy`): the playlists, the wrap-around track pointer
  and the state fields as a value (`Snapshot`). It gives the transitions that
  play/pause, next and previous apply, and the lemmas about them:
  - n steps of next (or of previous) return to the start;
  - previous undoes next;
  - play/pause is an involution;
  - the seven-track walk from the library table.
- `Playback` (`playback.dfy`): the controller as a class, `Controller`, with
  the audio element as a class, `Audio`. The commands, the two effects, the
  element's events and the settling of `play()` promises are methods. Each
  method states its whole new state, in most cases as a function from
  `Transport` applied to the old state.

  The invariant `Controller.Valid()` keeps the rule that makes track changes
  safe. Every element the controller has created, other than the live one,
  has had its listeners removed and is paused. Its events therefore change
  nothing, and each event method states so.

  `CommitEffects` models React's dependency check: an effect runs on the first
  render and whenever one of its dependencies differs from the value it last
  ran with. Two client methods exercise the controller:
  - `StaleEventsIgnored`: events from a replaced element are ignored.
  - `StaleRejectionPauses`: a late rejection still pauses the player.

Playlists: the controller takes any playlist with at least one track. The
three-track table of the component is `APP_PLAYLIST`. The seven-track table of
`src/models/Track.ts` is `LIBRARY_PLAYLIST`; it keeps only the name and source
of each track.

Time is a `real` number of seconds. A duration can also be NaN
(`Time.NaN`), as `audio.duration` is before metadata arrives.

Two behaviours of the code are easy to miss; the model keeps them:

- A rejected `play()` from the play/pause effect (src/App.tsx:240-243) sets
  `isPlaying` to false even when the element that issued it has already been
  replaced. Removing the listeners does not cancel that promise handler.
  `PlaySettled` states this and `StaleRejectionPauses` walks through one
  scenario of it.
- `isReady` is never cleared on a track change. So if a track change also
  turns `isPlaying` on, the play/pause effect calls `play()` on the new element
  before it has loaded. `duration` keeps the old track's value until the new
  `loadeddata` event.

## Model

| member | source | states |
|---|---|---|
| `TimeFormat.Trunc` | src/App.tsx:283 | rounding toward zero, which JavaScript's `%` uses: the floor for non-negative x; for negative x an integer n <= 0 with x <= n < x + 1 |
| `TimeFormat.Rem60` | src/App.tsx:283 | `t % 60` lies in [0, 60) for non-negative t and in (-60, 0] for negative t |
| `TimeFormat.IntToString` | src/App.tsx:284-286 | `toString` of a whole number is non-empty and starts with a minus sign exactly when the number is negative |
| `TimeFormat.PadStart2` | src/App.tsx:285 | `padStart(2, "0")` yields two characters for a shorter string and keeps a longer one's length |
| `TimeFormat.PadStart2Pads` | src/App.tsx:285 | the padded string ends with the original and everything in front of it is '0' |
| `TimeFormat.FormatTime` | src/App.tsx:280-287 | NaN is shown as "0:00"; every label has at least four characters and contains the colon |
| `TimeFormat.ParseClock` | src/App.tsx:280-287 | the reader of labels: it accepts only strings of at least four characters and gives a non-negative count of seconds |
| `TimeFormat.MinutesAndSeconds` | src/App.tsx:282-283 | for t >= 0, `floor(t / 60)` and `floor(t % 60)` are the minutes and the remaining seconds of the whole seconds `floor(t)` |
| `TimeFormat.NatRoundTrip` | src/App.tsx:282-286 | the decimal text of a whole number reads back as that number |
| `TimeFormat.TwoDigitSeconds` | src/App.tsx:283-285 | the padded seconds field is exactly two digits and reads back as the seconds, for every value below 60 |
| `TimeFormat.FormatWholeSeconds` | src/App.tsx:280-287 | for t >= 0 the label is the minutes of `floor(t)`, a colon and the remaining seconds padded to two digits |
| `TimeFormat.ClockRoundTrip` | src/App.tsx:280-287 | for every t >= 0, reading the label back gives `floor(t)` whole seconds |
| `TimeFormat.FormatStartExamples` | src/App.tsx:281-287 | NaN and 0 are both shown as "0:00" |
| `TimeFormat.FormatMinuteExample` | src/App.tsx:280-287 | every time in [65, 66) is shown as "1:05" |
| `TimeFormat.FormatLastShortExample` | src/App.tsx:280-287 | every time in [599, 600) is shown as "9:59" |
| `TimeFormat.FormatTwoDigitMinutesExample` | src/App.tsx:280-287 | every time in [754, 755) is shown as "12:34" (no hour field, minutes keep growing) |
| `TimeFormat.NegativeExample` | src/App.tsx:282-285 | with JavaScript's truncating remainder, -30 s is shown as "-1:-30" |
| `Transport.NextIndex` | src/App.tsx:254 | the next index stays in [0, n): the last track wraps to 0, every other index moves up by one |
| `Transport.PrevIndex` | src/App.tsx:259-261 | the previous index stays in [0, n): track 0 wraps to n - 1, every other index moves down by one |
| `Transport.AdvanceShifts` | src/App.tsx:253-256 | k presses of next move the index to (i + k) mod n |
| `Transport.RetreatShifts` | src/App.tsx:258-263 | k presses of previous move the index to (i - k) mod n |
| `Transport.NextCycle` | src/App.tsx:253-256 | n presses of next on an n-track playlist return to the starting track |
| `Transport.PrevCycle` | src/App.tsx:258-263 | n presses of previous on an n-track playlist return to the starting track |
| `Transport.PrevUndoesNext` | src/App.tsx:253-263 | previous after next, and next after previous, give back the starting index |
| `Transport.LibraryWalk` | src/models/Track.ts:3-46 | on the seven-track table, six presses of next from track 0 reach track 6 and a seventh returns to 0 |
| `Transport.AppWrap` | src/App.tsx:9-13 | on the three-track playlist, previous from track 0 gives track 2 and next from track 2 gives 0 |
| `Transport.Initial` | src/App.tsx:190-195 | the start state: the first track of any playlist, not playing, not ready, a volume within [0, 1], and both time labels "0:00" |
| `Transport.PlayPause` | src/App.tsx:249-251 | play/pause negates `isPlaying` and leaves every other field as it was |
| `Transport.Next` | src/App.tsx:253-256 | the index becomes `NextIndex`, (i + 1) mod n, and stays on the playlist; `isPlaying` becomes true; every other field is unchanged |
| `Transport.Prev` | src/App.tsx:258-263 | the index becomes `PrevIndex`, (i - 1 + n) mod n, and stays on the playlist; `isPlaying` becomes true; every other field is unchanged |
| `Transport.PlayPauseInvolution` | src/App.tsx:249-251 | pressing play/pause twice restores the state |
| `Transport.PrevAfterNext` | src/App.tsx:253-263 | previous after next (and the reverse) restores every field except that `isPlaying` becomes true |
| `Playback.Audio.constructor` | src/App.tsx:208 | a new element has the given source, is paused at position 0, has no duration yet (NaN) and has no listeners |
| `Playback.Controller.Valid` | src/App.tsx:200-233 | of all created elements exactly the live one has listeners registered, and every other one is paused |
| `Playback.Controller.constructor` | src/App.tsx:190-197 | the initial state: track 0, not playing, not ready, time 0 of duration 0, volume 0.7, no element yet |
| `Playback.Controller.PlayPause` | src/App.tsx:249-251 | the new state is `Transport.PlayPause` of the old one; the element, the promises and the effect dependencies are unchanged |
| `Playback.Controller.NextSong` | src/App.tsx:253-256 | the new state is `Transport.Next` of the old one; the element and the promises are unchanged; the invariant holds |
| `Playback.Controller.PrevSong` | src/App.tsx:258-263 | the new state is `Transport.Prev` of the old one; the element and the promises are unchanged; the invariant holds |
| `Playback.Controller.Seek` | src/App.tsx:265-270 | without an element nothing changes; otherwise both the element's position and `currentTime` become t, with no clamping |
| `Playback.Controller.VolumeChange` | src/App.tsx:272-278 | `volume` becomes v, and so does the live element's volume when there is one; nothing else changes |
| `Playback.Controller.InstallAudio` | src/App.tsx:200-233 | the old element loses its listeners and is paused (its volume, position and duration untouched) before a fresh element for the current track's source, at position 0 with NaN duration, paused, with the current volume and the listeners, becomes the live one |
| `Playback.Controller.SyncPlayback` | src/App.tsx:236-247 | nothing happens without an element or before `isReady`; otherwise `play()` is issued when `isPlaying` holds, and the element is paused when it does not; the element's volume, listeners, position and duration never change |
| `Playback.Controller.CommitEffects` | src/App.tsx:200-247 | the track effect runs exactly on the first render or a changed index, and then the live element is a fresh one at position 0 with NaN duration; the play/pause effect runs exactly on the first render or a changed `isPlaying`/`isReady`, and then, once ready, issues `play()` or pauses; otherwise the element's paused flag, position and duration are as before; afterwards the live element plays the current track |
| `Playback.Controller.LoadedData` | src/App.tsx:212-218 | on the live element `duration` is taken from it, `isReady` is set and `play()` is issued exactly when `isPlaying` holds; on a replaced element nothing changes |
| `Playback.Controller.TimeUpdate` | src/App.tsx:220 | on the live element `currentTime` becomes its position; on a replaced element nothing changes |
| `Playback.Controller.Ended` | src/App.tsx:221 | on the live element the state changes exactly as `Transport.Next`; on a replaced element nothing changes |
| `Playback.Controller.PlaySettled` | src/App.tsx:240-243 | the settled promise leaves the pending list; only a rejection of a call issued by the play/pause effect changes state, and it clears only `isPlaying` |

## Left out

- Styling and the rendered markup (src/App.tsx:15-186, 289-336) are
  presentation. This includes the title and the two time labels, which only
  apply `formatTime` to `currentTime` and `duration`.
- The audio element's own behaviour is not modelled. That covers fetching,
  decoding, sound output, advancing the position and discovering the
  duration: the caller of an event writes the element's `currentTime` or
  `duration` first. A rejected `play()` does not change the element's
  `paused` flag in the model. `console.error` logging has no effect on state
  and is omitted.
- The outcome of `play()` is an input. `PlaySettled(k, resolved)` says which
  unsettled promise settles and how; the browser decides this.
- React's scheduling beyond the dependency comparison is not modelled: no
  batching of updates across handlers, no double-invoked effects.
- Playback.Controller.LoadedData: uses the current `isPlaying`. The
  listener's closure really reads the value from the render in which the
  track effect ran (src/App.tsx:215). If play/pause is pressed before the
  track loads, the real handler can call `play()` while `isPlaying` is false.
- Playback.Controller.Seek and Playback.Controller.VolumeChange: take numbers.
  The `Number(e.target.value)` parsing of the range inputs is not modelled.
  The volume is required to lie in [0, 1], the range of its slider; the
  element would reject anything else.
- TimeFormat.FormatTime: JavaScript numbers are modelled as NaN or an exact
  real. Infinity, negative zero, rounding of doubles and the exponent
  notation of integers from 1e21 up are not modelled.
- The general label lemmas (`FormatWholeSeconds`, `ClockRoundTrip`) are
  stated for non-negative times, which is what the timeline produces.
  Negative times are computed by `FormatTime` itself; `NegativeExample`
  shows one.
- Mute and the pre-mute volume, the touch-device interaction gate,
  `isLoading`, the volume-percentage timer, the random visualizer and an
  error listener do not exist in this component, so nothing models them.
- `src/models/Track.ts` is a constant table. It only provides
  `LIBRARY_PLAYLIST`, the seven-track playlist.
