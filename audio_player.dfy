/**
 * The playback engine (src/hooks/useAudioPlayer.ts): the player state and
 * the single media element it drives. Each control's state update
 * (`setPlayerState(prev => ...)`) is a function on `PlayerState`; the class
 * `Player` holds the state and the element and applies both.
 */
module AudioPlayer {
  import opened Wrappers
  import opened MusicTypes
  import opened JsString

  /**
   * What the engine sets on the media element: its source URL, whether
   * playback has been requested (`play()`) or stopped (`pause()`, end of
   * stream), its playback position in seconds and its output volume.
   */
  datatype MediaElement = MediaElement(src: string, playing: bool, position: int, volume: real)

  // ---------------------------------------------------------------------------
  // State transitions

  /** The state the hook starts from, with the given tracks as its playlist. */
  function InitialPlayerState(tracks: seq<Track>): (s: PlayerState)
    ensures s.currentTrack == None && !s.isPlaying && s.currentTime == 0
    ensures s.volume == 0.7 && !s.isShuffled && s.repeatMode == RepeatNone
    ensures s.playlist == tracks && s.currentIndex == -1
  {
    PlayerState(None, false, 0, 0.7, false, RepeatNone, tracks, -1)
  }

  /**
   * `playTrack(track, index)` on the state: the track becomes current and
   * playing; the index becomes `index` when one is given and stays
   * otherwise; nothing else changes.
   */
  function TrackPlayed(s: PlayerState, track: Track, index: Option<int>): (r: PlayerState)
    ensures r.currentTrack == Some(track) && r.isPlaying
    ensures index.Some? ==> r.currentIndex == index.value
    ensures index.None? ==> r.currentIndex == s.currentIndex
    ensures r.(currentTrack := s.currentTrack, isPlaying := s.isPlaying, currentIndex := s.currentIndex) == s
  {
    s.(currentTrack := Some(track),
       currentIndex := if index.Some? then index.value else s.currentIndex,
       isPlaying := true)
  }

  /** Assigning a new source restarts the element's load at position 0; `play()` follows. */
  function Loaded(a: MediaElement, url: string): (r: MediaElement)
    ensures r.src == url && r.playing && r.position == 0 && r.volume == a.volume
  {
    a.(src := url, position := 0, playing := true)
  }

  /** `togglePlayPause` on the state: nothing without a current track, else `isPlaying` flips. */
  function PlayPauseToggled(s: PlayerState): (r: PlayerState)
    ensures s.currentTrack.None? ==> r == s
    ensures s.currentTrack.Some? ==> r.isPlaying == !s.isPlaying && r.(isPlaying := s.isPlaying) == s
  {
    if s.currentTrack.None? then s else s.(isPlaying := !s.isPlaying)
  }

  /**
   * The unshuffled next index `(currentIndex + 1) % length`: from -1 or any
   * larger index (an index past the end, which a shrunken playlist can leave
   * behind, included) it is a valid index, the remainder of the successor;
   * from a valid index that is the successor except after the last index,
   * which wraps to 0. Below -1 the remainder is not positive.
   */
  function NextIndex(currentIndex: int, length: int): (r: int)
    requires length > 0
    ensures currentIndex >= -1 ==> 0 <= r < length && r == (currentIndex + 1) % length
    ensures -1 <= currentIndex < length - 1 ==> r == currentIndex + 1
    ensures currentIndex == length - 1 ==> r == 0
    ensures currentIndex < -1 ==> r <= 0
  {
    RemOfSmaller(currentIndex + 1, length);
    RemOfSelf(length);
    JsRem(currentIndex + 1, length)
  }

  /**
   * The previous index: the last index from 0, -1 or below, the
   * predecessor otherwise (which is out of range when the index is past the
   * end of the playlist).
   */
  function PreviousIndex(currentIndex: int, length: int): (r: int)
    requires length > 0
    ensures currentIndex <= 0 ==> r == length - 1
    ensures currentIndex > 0 ==> r == currentIndex - 1
    ensures 0 <= currentIndex <= length ==> 0 <= r < length
  {
    if currentIndex <= 0 then length - 1 else currentIndex - 1
  }

  /** The repeat cycle none, all, one, none. */
  function NextRepeatMode(m: RepeatMode): (r: RepeatMode)
    ensures r != m
    ensures m == RepeatNone ==> r == RepeatAll
    ensures m == RepeatAll ==> r == RepeatOne
    ensures m == RepeatOne ==> r == RepeatNone
  {
    match m
    case RepeatNone => RepeatAll
    case RepeatAll => RepeatOne
    case RepeatOne => RepeatNone
  }

  /** Three steps of the repeat cycle come back to the start; fewer never do. */
  lemma RepeatCycleHasPeriodThree(m: RepeatMode)
    ensures NextRepeatMode(NextRepeatMode(NextRepeatMode(m))) == m
    ensures NextRepeatMode(NextRepeatMode(m)) != m
  {
  }

  /** `toggleRepeat` on the state: only the repeat mode moves along the cycle. */
  function RepeatToggled(s: PlayerState): (r: PlayerState)
    ensures r.repeatMode == NextRepeatMode(s.repeatMode)
    ensures r.(repeatMode := s.repeatMode) == s
  {
    s.(repeatMode := NextRepeatMode(s.repeatMode))
  }

  /** `toggleShuffle` on the state: only the shuffle flag flips. */
  function ShuffleToggled(s: PlayerState): (r: PlayerState)
    ensures r.isShuffled == !s.isShuffled
    ensures r.(isShuffled := s.isShuffled) == s
  {
    s.(isShuffled := !s.isShuffled)
  }

  /** Toggling shuffle twice, or repeat three times, gives the state back. */
  lemma TogglesRestore(s: PlayerState)
    ensures ShuffleToggled(ShuffleToggled(s)) == s
    ensures RepeatToggled(RepeatToggled(RepeatToggled(s))) == s
  {
    RepeatCycleHasPeriodThree(s.repeatMode);
  }

  /** Replacing the playlist keeps the current track and index as they were. */
  function PlaylistReplaced(s: PlayerState, tracks: seq<Track>): (r: PlayerState)
    ensures r.playlist == tracks
    ensures r.(playlist := s.playlist) == s
  {
    s.(playlist := tracks)
  }

  /** What the end-of-stream handler does. */
  datatype EndAction = RestartTrack | Advance | Stop

  /**
   * The end-of-track policy: repeat one restarts the track; repeat all, or
   * an index before the last, advances as `nextTrack` does; otherwise
   * playback stops.
   */
  function EndOfTrackAction(s: PlayerState): (r: EndAction)
    ensures r == RestartTrack <==> s.repeatMode == RepeatOne
    ensures r == Advance <==>
              s.repeatMode != RepeatOne
              && (s.repeatMode == RepeatAll || s.currentIndex < |s.playlist| - 1)
    ensures r == Stop <==>
              s.repeatMode == RepeatNone && s.currentIndex >= |s.playlist| - 1
  {
    match s.repeatMode
    case RepeatOne => RestartTrack
    case RepeatAll => Advance
    case RepeatNone => if s.currentIndex < |s.playlist| - 1 then Advance else Stop
  }

  /** Playing the track at index `k` of the playlist took the engine from (s0, a0) to (s1, a1). */
  predicate PlayedAt(s0: PlayerState, a0: MediaElement, s1: PlayerState, a1: MediaElement, k: int) {
    0 <= k < |s0.playlist|
    && s1 == TrackPlayed(s0, s0.playlist[k], Some(k))
    && a1 == Loaded(a0, s0.playlist[k].audioUrl)
  }

  // ---------------------------------------------------------------------------
  // The engine

  class Player {
    var state: PlayerState
    var audio: MediaElement

    /** The element's volume is the stored one and in range, and it holds the current track's source. */
    ghost predicate Valid()
      reads this
    {
      && state.volume == audio.volume
      && 0.0 <= audio.volume <= 1.0
      && (state.currentTrack.Some? ==> audio.src == state.currentTrack.value.audioUrl)
    }

    /** Mounting the hook: the initial state, and the element's volume set from it. */
    constructor (initialTracks: seq<Track>)
      ensures Valid()
      ensures state == InitialPlayerState(initialTracks)
      ensures audio == MediaElement("", false, 0, 0.7)
    {
      state := InitialPlayerState(initialTracks);
      audio := MediaElement("", false, 0, 0.7);
    }

    /** `playTrack(track, index)`: without a track nothing happens. */
    method PlayTrack(track: Option<Track>, index: Option<int>)
      requires Valid()
      modifies this
      ensures Valid()
      ensures track.None? ==> state == old(state) && audio == old(audio)
      ensures track.Some? ==>
                state == TrackPlayed(old(state), track.value, index)
                && audio == Loaded(old(audio), track.value.audioUrl)
    {
      if track.Some? {
        audio := Loaded(audio, track.value.audioUrl);
        state := TrackPlayed(state, track.value, index);
      }
    }

    /** `togglePlayPause`: with a current track, pauses or resumes the element and flips the flag. */
    method TogglePlayPause()
      requires Valid()
      modifies this
      ensures Valid()
      ensures state == PlayPauseToggled(old(state))
      ensures old(state.currentTrack).None? ==> audio == old(audio)
      ensures old(state.currentTrack).Some? ==> audio == old(audio).(playing := !old(state.isPlaying))
    {
      if state.currentTrack.Some? {
        if state.isPlaying {
          audio := audio.(playing := false);
        } else {
          audio := audio.(playing := true);
        }
        state := PlayPauseToggled(state);
      }
    }

    /**
     * `nextTrack`: nothing on an empty playlist. Unshuffled, plays
     * `NextIndex` when that is a valid index; shuffled, plays some index of
     * the playlist, which may be the current one.
     */
    method NextTrack()
      requires Valid()
      modifies this
      ensures Valid()
      ensures |old(state.playlist)| == 0 ==> state == old(state) && audio == old(audio)
      ensures |old(state.playlist)| > 0 && !old(state.isShuffled) ==>
                var k := NextIndex(old(state.currentIndex), |old(state.playlist)|);
                if 0 <= k then PlayedAt(old(state), old(audio), state, audio, k)
                else state == old(state) && audio == old(audio)
      ensures |old(state.playlist)| > 0 && old(state.isShuffled) ==>
                exists k :: PlayedAt(old(state), old(audio), state, audio, k)
    {
      var n := |state.playlist|;
      if n == 0 {
        return;
      }
      var k: int;
      if state.isShuffled {
        // Math.floor(Math.random() * length): some index of the playlist
        k :| 0 <= k < n;
      } else {
        k := NextIndex(state.currentIndex, n);
      }
      if 0 <= k < n {
        ghost var s0, a0 := state, audio;
        PlayTrack(Some(state.playlist[k]), Some(k));
        assert PlayedAt(s0, a0, state, audio, k);
      }
    }

    /**
     * `previousTrack`: nothing on an empty playlist; otherwise plays
     * `PreviousIndex` when that is a valid index. Shuffle plays no part.
     */
    method PreviousTrack()
      requires Valid()
      modifies this
      ensures Valid()
      ensures |old(state.playlist)| == 0 ==> state == old(state) && audio == old(audio)
      ensures |old(state.playlist)| > 0 ==>
                var k := PreviousIndex(old(state.currentIndex), |old(state.playlist)|);
                if k < |old(state.playlist)| then PlayedAt(old(state), old(audio), state, audio, k)
                else state == old(state) && audio == old(audio)
    {
      var n := |state.playlist|;
      if n == 0 {
        return;
      }
      var k := PreviousIndex(state.currentIndex, n);
      if 0 <= k < n {
        PlayTrack(Some(state.playlist[k]), Some(k));
      }
    }

    /**
     * `setVolume(v)`: the element and the state both take exactly `v`. The
     * element refuses a volume outside [0, 1] by throwing, and then the
     * state is not updated either; `accepted` says which case occurred.
     */
    method SetVolume(v: real) returns (accepted: bool)
      requires Valid()
      modifies this
      ensures Valid()
      ensures accepted <==> 0.0 <= v <= 1.0
      ensures accepted ==> state == old(state).(volume := v) && audio == old(audio).(volume := v)
      ensures !accepted ==> state == old(state) && audio == old(audio)
    {
      if !(0.0 <= v <= 1.0) {
        return false;
      }
      audio := audio.(volume := v);
      state := state.(volume := v);
      return true;
    }

    /** `seekTo(t)`: the element's position is set and the state takes `t` at once. */
    method SeekTo(t: int)
      requires Valid()
      modifies this
      ensures Valid()
      ensures state == old(state).(currentTime := t)
      ensures audio == old(audio).(position := t)
    {
      audio := audio.(position := t);
      state := state.(currentTime := t);
    }

    method ToggleShuffle()
      requires Valid()
      modifies this
      ensures Valid()
      ensures state == ShuffleToggled(old(state)) && audio == old(audio)
    {
      state := ShuffleToggled(state);
    }

    method ToggleRepeat()
      requires Valid()
      modifies this
      ensures Valid()
      ensures state == RepeatToggled(old(state)) && audio == old(audio)
    {
      state := RepeatToggled(state);
    }

    /** The library's tracks changed: the playlist is replaced, nothing else. */
    method ReplacePlaylist(tracks: seq<Track>)
      requires Valid()
      modifies this
      ensures Valid()
      ensures state == PlaylistReplaced(old(state), tracks) && audio == old(audio)
    {
      state := PlaylistReplaced(state, tracks);
    }

    /** The element's `timeupdate` signal: the state takes the element's position. */
    method HandleTimeUpdate()
      requires Valid()
      modifies this
      ensures Valid()
      ensures state == old(state).(currentTime := old(audio).position) && audio == old(audio)
    {
      state := state.(currentTime := audio.position);
    }

    /** The element's `loadstart` signal: the stored time goes back to 0. */
    method HandleLoadStart()
      requires Valid()
      modifies this
      ensures Valid()
      ensures state == old(state).(currentTime := 0) && audio == old(audio)
    {
      state := state.(currentTime := 0);
    }

    /**
     * The element's `ended` signal. The element has stopped at the end of
     * its stream; then, by `EndOfTrackAction`: repeat one rewinds the
     * element to 0 and plays again with the state untouched; advancing
     * behaves as `nextTrack`; stopping only clears `isPlaying`, keeping the
     * track.
     */
    method HandleEnded()
      requires Valid()
      modifies this
      ensures Valid()
      ensures EndOfTrackAction(old(state)) == RestartTrack ==>
                state == old(state) && audio == old(audio).(position := 0, playing := true)
      ensures EndOfTrackAction(old(state)) == Stop ==>
                state == old(state).(isPlaying := false) && audio == old(audio).(playing := false)
      ensures EndOfTrackAction(old(state)) == Advance && |old(state.playlist)| == 0 ==>
                state == old(state) && audio == old(audio).(playing := false)
      ensures EndOfTrackAction(old(state)) == Advance && |old(state.playlist)| > 0 && !old(state.isShuffled) ==>
                var k := NextIndex(old(state.currentIndex), |old(state.playlist)|);
                if 0 <= k then PlayedAt(old(state), old(audio).(playing := false), state, audio, k)
                else state == old(state) && audio == old(audio).(playing := false)
      ensures EndOfTrackAction(old(state)) == Advance && |old(state.playlist)| > 0 && old(state.isShuffled) ==>
                exists k :: PlayedAt(old(state), old(audio).(playing := false), state, audio, k)
    {
      audio := audio.(playing := false);
      match EndOfTrackAction(state)
      case RestartTrack =>
        audio := audio.(position := 0, playing := true);
      case Advance =>
        NextTrack();
      case Stop =>
        state := state.(isPlaying := false);
    }
  }
}
