/**
 * The records shared by the player, the equalizer and the library
 * (src/types/music.ts). Durations and times are whole seconds and gains
 * are whole decibels; volume is a real in the platform's [0, 1] range.
 */
module MusicTypes {
  import opened Wrappers

  /** A playable item with its descriptive metadata; the optional fields are absent when unknown. */
  datatype Track = Track(
    id: string,
    title: string,
    artist: string,
    album: string,
    duration: int,
    coverUrl: string,
    audioUrl: string,
    fileSize: Option<int>,
    format: Option<string>,
    bitrate: Option<int>,
    sampleRate: Option<int>,
    genre: Option<string>,
    year: Option<int>,
    filePath: Option<string>)

  datatype RepeatMode = RepeatNone | RepeatOne | RepeatAll

  /** The playback engine's snapshot of what is playing and where in the queue. */
  datatype PlayerState = PlayerState(
    currentTrack: Option<Track>,
    isPlaying: bool,
    currentTime: int,
    volume: real,
    isShuffled: bool,
    repeatMode: RepeatMode,
    playlist: seq<Track>,
    currentIndex: int)

  /** One equalizer band; `labelText` is the source's `label` (a Dafny keyword). */
  datatype EqualizerBand = EqualizerBand(frequency: int, gain: int, labelText: string)

  datatype EqualizerState = EqualizerState(
    isEnabled: bool,
    preset: string,
    bands: seq<EqualizerBand>,
    bass: int,
    treble: int)
}
