/**
 * The pure part of the player's transport: the playlist, the wrap-around
 * track pointer used by "next" and "previous", and the controller's state
 * fields as one value with the transitions that the user commands apply.
 */
module Transport {
  import opened TimeFormat

  /** A playlist entry as the player uses it: a title and an audio URL. */
  datatype Track = Track(name: string, src: string)

  /** The three tracks the player ships with. */
  const APP_PLAYLIST: seq<Track> := [
    Track("Song 1 - Adonai", "/assets/adonai.mp3"),
    Track("Song 2 - Bambi", "/assets/bambi.mp3"),
    Track("Song 3 - Memories", "/assets/memories.mp3")
  ]

  /** The seven-track library table (artist and cover are not used by the
   *  player and are dropped). */
  const LIBRARY_PLAYLIST: seq<Track> := [
    Track("Adonai", "/assets/adonai.mp3"),
    Track("Bambi", "/assets/bambi.mp3"),
    Track("Memories", "/assets/memories.mp3"),
    Track("Rake that risk", "/assets/CB-take.mp3"),
    Track("Plenty", "/assets/plenty.mp3"),
    Track("Middle Child", "/assets/middle-child.mp3"),
    Track("Every Season", "/assets/everyseason.mp3")
  ]

  // ---------------------------------------------------------------------
  // The track pointer

  /** `(i + 1) % n`: the following track, wrapping from the last to the first. */
  function NextIndex(i: int, n: int): (j: int)
    requires 0 <= i < n
    ensures 0 <= j < n
    ensures j == if i == n - 1 then 0 else i + 1
  {
    (i + 1) % n
  }

  /** `(i - 1 + n) % n`: the preceding track, wrapping from the first to the last. */
  function PrevIndex(i: int, n: int): (j: int)
    requires 0 <= i < n
    ensures 0 <= j < n
    ensures j == if i == 0 then n - 1 else i - 1
  {
    (i - 1 + n) % n
  }

  /** The pointer after k "next" steps from i. */
  function Advance(i: int, k: nat, n: int): (j: int)
    requires 0 <= i < n
    ensures 0 <= j < n
    decreases k
  {
    if k == 0 then i else NextIndex(Advance(i, k - 1, n), n)
  }

  /** The pointer after k "previous" steps from i. */
  function Retreat(i: int, k: nat, n: int): (j: int)
    requires 0 <= i < n
    ensures 0 <= j < n
    decreases k
  {
    if k == 0 then i else PrevIndex(Retreat(i, k - 1, n), n)
  }

  lemma MulAtLeast(d: int, n: int)
    requires d >= 1 && n >= 0
    ensures d * n >= n
    decreases d
  {
    if d > 1 {
      MulAtLeast(d - 1, n);
      assert d * n == (d - 1) * n + n;
    }
  }

  /** Euclidean division has one quotient and one remainder. */
  lemma ModUnique(a: int, n: int, q: int, r: int)
    requires 0 <= r < n && a == q * n + r
    ensures a % n == r
  {
    var q', r' := a / n, a % n;
    assert a == q' * n + r';
    var d := q - q';
    assert d * n == q * n - q' * n;
    assert d * n == r' - r;
    if d >= 1 {
      MulAtLeast(d, n);
    } else if d <= -1 {
      MulAtLeast(-d, n);
    }
  }

  /** One "next" step on a pointer a % n gives (a + 1) % n. */
  lemma NextStep(a: int, n: int)
    requires n > 0
    ensures NextIndex(a % n, n) == (a + 1) % n
  {
    var p, q := a % n, a / n;
    assert a == q * n + p;
    if p == n - 1 {
      assert (q + 1) * n == q * n + n;
      ModUnique(a + 1, n, q + 1, 0);
    } else {
      ModUnique(a + 1, n, q, p + 1);
    }
  }

  /** One "previous" step on a pointer a % n gives (a - 1) % n. */
  lemma PrevStep(a: int, n: int)
    requires n > 0
    ensures PrevIndex(a % n, n) == (a - 1) % n
  {
    var p, q := a % n, a / n;
    assert a == q * n + p;
    if p == 0 {
      assert (q - 1) * n == q * n - n;
      ModUnique(a - 1, n, q - 1, n - 1);
    } else {
      ModUnique(a - 1, n, q, p - 1);
    }
  }

  /** k "next" steps move the pointer k places forward, modulo n. */
  lemma {:induction false} AdvanceShifts(i: int, k: nat, n: int)
    requires 0 <= i < n
    ensures Advance(i, k, n) == (i + k) % n
    decreases k
  {
    if k == 0 {
      ModUnique(i, n, 0, i);
    } else {
      AdvanceShifts(i, k - 1, n);
      NextStep(i + k - 1, n);
    }
  }

  /** k "previous" steps move the pointer k places back, modulo n. */
  lemma {:induction false} RetreatShifts(i: int, k: nat, n: int)
    requires 0 <= i < n
    ensures Retreat(i, k, n) == (i - k) % n
    decreases k
  {
    if k == 0 {
      ModUnique(i, n, 0, i);
    } else {
      RetreatShifts(i, k - 1, n);
      PrevStep(i - k + 1, n);
    }
  }

  /** n "next" steps on an n-track playlist return to the starting track. */
  lemma NextCycle(i: int, n: int)
    requires 0 <= i < n
    ensures Advance(i, n, n) == i
  {
    AdvanceShifts(i, n, n);
    ModUnique(i + n, n, 1, i);
  }

  /** n "previous" steps on an n-track playlist return to the starting track. */
  lemma PrevCycle(i: int, n: int)
    requires 0 <= i < n
    ensures Retreat(i, n, n) == i
  {
    RetreatShifts(i, n, n);
    ModUnique(i - n, n, -1, i);
  }

  /** "previous" undoes "next", and "next" undoes "previous". */
  lemma PrevUndoesNext(i: int, n: int)
    requires 0 <= i < n
    ensures PrevIndex(NextIndex(i, n), n) == i
    ensures NextIndex(PrevIndex(i, n), n) == i
  {
  }

  /** From the first of the seven library tracks, six "next" steps reach the
   *  last and a seventh wraps to the first. */
  lemma LibraryWalk()
    ensures |LIBRARY_PLAYLIST| == 7
    ensures Advance(0, 6, |LIBRARY_PLAYLIST|) == 6
    ensures Advance(0, 7, |LIBRARY_PLAYLIST|) == 0
  {
    AdvanceShifts(0, 6, 7);
    NextCycle(0, 7);
  }

  /** On the shipped three-track playlist, "previous" from the first track
   *  plays the last one. */
  lemma AppWrap()
    ensures |APP_PLAYLIST| == 3
    ensures PrevIndex(0, |APP_PLAYLIST|) == 2
    ensures NextIndex(2, |APP_PLAYLIST|) == 0
  {
  }

  // ---------------------------------------------------------------------
  // The controller's state fields as one value

  /** `currentTrackIndex`, `isPlaying`, `isReady`, `currentTime`, `duration`
   *  and `volume`. */
  datatype Snapshot = Snapshot(
    trackIndex: int,
    isPlaying: bool,
    isReady: bool,
    currentTime: real,
    duration: Time,
    volume: real)

  predicate OnPlaylist(s: Snapshot, n: int) {
    0 <= s.trackIndex < n
  }

  /** The state the player starts in: first track, paused, not loaded,
   *  at 0 s of a 0 s track, volume 0.7. */
  function Initial(): (r: Snapshot)
    ensures OnPlaylist(r, 1) && !r.isPlaying && !r.isReady && 0.0 <= r.volume <= 1.0
    ensures FormatTime(Num(r.currentTime)) == "0:00" && FormatTime(r.duration) == "0:00"
  {
    FormatStartExamples();
    Snapshot(0, false, false, 0.0, Num(0.0), 0.7)
  }

  /** The play/pause button: flip the intent to play, nothing else. */
  function PlayPause(s: Snapshot): (r: Snapshot)
    ensures r.isPlaying != s.isPlaying
    ensures r.(isPlaying := s.isPlaying) == s
  {
    s.(isPlaying := !s.isPlaying)
  }

  /** The "next" button (and the end of a track): the following track, playing. */
  function Next(s: Snapshot, n: int): (r: Snapshot)
    requires OnPlaylist(s, n)
    ensures OnPlaylist(r, n) && r.isPlaying
    ensures r.trackIndex == NextIndex(s.trackIndex, n)
    ensures r.(trackIndex := s.trackIndex, isPlaying := s.isPlaying) == s
  {
    s.(trackIndex := NextIndex(s.trackIndex, n), isPlaying := true)
  }

  /** The "previous" button: the preceding track, playing. */
  function Prev(s: Snapshot, n: int): (r: Snapshot)
    requires OnPlaylist(s, n)
    ensures OnPlaylist(r, n) && r.isPlaying
    ensures r.trackIndex == PrevIndex(s.trackIndex, n)
    ensures r.(trackIndex := s.trackIndex, isPlaying := s.isPlaying) == s
  {
    s.(trackIndex := PrevIndex(s.trackIndex, n), isPlaying := true)
  }

  /** Pressing play/pause twice leaves the state as it was. */
  lemma PlayPauseInvolution(s: Snapshot)
    ensures PlayPause(PlayPause(s)) == s
  {
  }

  /** "previous" after "next" (and "next" after "previous") returns to the
   *  starting track, now playing, with every other field as it was. */
  lemma PrevAfterNext(s: Snapshot, n: int)
    requires OnPlaylist(s, n)
    ensures Prev(Next(s, n), n) == s.(isPlaying := true)
    ensures Next(Prev(s, n), n) == s.(isPlaying := true)
  {
    PrevUndoesNext(s.trackIndex, n);
  }
}
