# Music player core, modelled in Dafny

This project models the engine of a browser music player written in
TypeScript with React hooks. It has four parts:

- **Playback engine** (`src/hooks/useAudioPlayer.ts`). A player state
  record drives one media element. Controls are play a track,
  play/pause, next and previous (sequential or shuffled), volume, seek,
  shuffle and a three-way repeat cycle. The element's `timeupdate`,
  `loadstart` and `ended` signals feed back into the state.
- **Equalizer** (`src/hooks/useEqualizer.ts`). A ten-band state record
  and a fixed table of eight presets. A filter chain (source, a low
  shelf, eight peaking filters, a high shelf, an output gain node, the
  destination) is built once, lazily. Every control updates the state
  record and pushes into the live filters.
- **File ingestion** (`src/hooks/useFileScanner.ts`). Picked audio files
  become tracks:
  - the extension is removed;
  - artist and title follow the "Artist - Title" convention;
  - the format comes from the MIME subtype;
  - the duration comes from a metadata probe.

  The library list is only ever appended to or cleared. Clearing revokes
  the blob URLs it holds.
- **Library view** (`src/components/MusicLibrary.tsx`). A
  case-insensitive search over title, artist and album, then a sort by
  title, artist, album or duration.

The records of `src/types/music.ts:1-41` are datatypes in `music_types.dfy`:

- `Track` (its optional fields are `Option`s);
- `RepeatMode`, `PlayerState`, `EqualizerBand` and `EqualizerState`.

Each hook's state updates (`setState(prev => ...)`) are pure functions on
these records. The parts of a hook that change things in place are
classes whose methods are proved against those functions:

- `AudioPlayer.Player` holds the player state and the media element.
- `Equalizer.Equalizer` holds the state, the live filters, the
  connections, the gain node and the audio context.
- `FileScanner.Library` holds the library list and a ghost log of
  revoked URLs.

The JavaScript built-ins the core relies on are modelled in
`js_string.dfy`:

- `trim`, `split`, `includes`, `startsWith`, `padStart`;
- case mapping, number-to-string, and the truncating `%`.

`IndexOf` is the search inside `split`; the source never calls `indexOf`
itself. Each built-in has a contract stating what it computes. For `split`,
three lemmas together fix the result:

- joining the pieces gives the string back;
- no piece contains the separator;
- every cut is at the leftmost occurrence that remains. The shared `formatTime` is
in `time_format.dfy`.

Modelling decisions:

- Times, durations and gains are whole numbers (the source uses
  JavaScript doubles). Volume is a `real`.
- Values the platform invents are parameters. These are `Date.now()`
  and `Math.random()` in ids, and `URL.createObjectURL` suffixes.
- The metadata probe's outcome is a parameter.
- The shuffle's random index is a nondeterministic choice of any valid
  index.
- `localeCompare` is a parameter `collate` of function type. A property
  that needs it says so: it must be antisymmetric, or also transitive
  where order between non-neighbours is claimed.

Three places where the code differs from what one might expect; the
model follows the code:

- **Format.** The format is `file.type.split('/')[1]`. That is the text
  up to the *next* '/', not everything after the first one.
- **Volume.** `setVolume` assigns `volume` on the element first. The
  element throws for a value outside [0, 1], so the state is not updated
  either. `Player.SetVolume` reports which case occurred.
- **Presets.** `presets[name] || presets['Flat']` falls back to Flat
  only for names the object literal cannot answer. A name inherited
  from `Object.prototype` (`"toString"`, `"constructor"`, …) yields a
  truthy non-array. Then every band's gain reads 0 and no live filter is
  touched (`Equalizer.LookupPreset`, `Equalizer.ChosenGains`).

## Model

| member | source | states |
|---|---|---|
| JsString.Trim | src/hooks/useFileScanner.ts:23-26 | the result is an infix of the input, everything around it is whitespace, and it neither starts nor ends with whitespace |
| JsString.TrimFixesTrimmed | src/hooks/useFileScanner.ts:23-26 | a string that neither starts nor ends with whitespace is its own trim |
| JsString.TrimIdempotent | src/hooks/useFileScanner.ts:23-26 | trimming twice gives the same as trimming once |
| JsString.Includes | src/components/MusicLibrary.tsx:24-26 | true exactly when the needle occurs at some position of the haystack |
| JsString.IndexOf | src/hooks/useFileScanner.ts:16 | the position found is an occurrence of the separator; it is the first one, and there is none when no position is returned |
| JsString.Split | src/hooks/useFileScanner.ts:16 | a split always has at least one piece |
| JsString.SplitJoin | src/hooks/useFileScanner.ts:16 | joining the pieces with the separator gives the original string back |
| JsString.SplitPiecesAreFree | src/hooks/useFileScanner.ts:16 | no piece of a split contains the separator |
| JsString.SplitTakesLeftmost | src/hooks/useFileScanner.ts:16 | the cuts are leftmost-first: from piece k on, the joined remainder's first separator occurrence is right after piece k (so "A - - B" splits as ["A", "- B"]) |
| JsString.ToLower | src/components/MusicLibrary.tsx:24-26 | same length; capitals become small letters; every other character is unchanged; no capital remains |
| JsString.ToUpper | src/hooks/useFileScanner.ts:38 | same length; small letters become capitals; every other character is unchanged; no small letter remains |
| JsString.StartsWith | src/hooks/useFileScanner.ts:140 | true exactly when the string's first characters are the prefix (also the audio test at line 91) |
| JsString.IntToString | src/hooks/useAudioPlayer.ts:20 | the `${mins}` rendering: a whole number's digits, with a minus sign in front when it is negative |
| JsString.NatToString | src/hooks/useAudioPlayer.ts:20 | at least one digit, no leading zero except for "0", and the digits read back as the number |
| JsString.PadStart | src/hooks/useAudioPlayer.ts:20 | a string already as wide is unchanged; otherwise the result has the width, ends with the string and is fill before it |
| JsString.JsRem | src/hooks/useAudioPlayer.ts:64 | the remainder takes the dividend's sign, has magnitude below the divisor, and completes the truncated quotient: a == trunc(a/n)*n + r |
| TimeFormat.FormatTime | src/hooks/useAudioPlayer.ts:17-21 | for a non-negative time: the minutes' shortest decimal digits (no leading zero), a colon, and exactly two seconds digits worth less than 60; minutes*60 + seconds == s |
| TimeFormat.TwoDigits | src/hooks/useAudioPlayer.ts:20 | a number below 100 padded to width 2 with '0' is two digits that read back as the number |
| TimeFormat.FormatTimeInjective | src/hooks/useAudioPlayer.ts:17-21 | two non-negative times that render alike are equal |
| TimeFormat.FormatTimeNegativeExample | src/hooks/useAudioPlayer.ts:18-19 | -5 seconds renders as "-1:-5": floor division for minutes, a truncating remainder for seconds |
| TimeFormat.FormatTimeExample | src/components/MusicLibrary.tsx:45-49 | 65 renders as "1:05" and 600 as "10:00" |
| Equalizer.InitialEqualizerState | src/hooks/useEqualizer.ts:11-28 | ten bands at the fixed frequencies and labels, all gains 0; preset "Flat"; disabled; bass and treble 0 |
| Equalizer.BandUpdated | src/hooks/useEqualizer.ts:79-90 | an index outside the bands changes nothing; otherwise only that band's gain changes and the preset becomes "Custom" |
| Equalizer.BassSet | src/hooks/useEqualizer.ts:112 | bass takes the value and the preset becomes "Custom"; nothing else changes |
| Equalizer.TrebleSet | src/hooks/useEqualizer.ts:133 | treble takes the value and the preset becomes "Custom"; nothing else changes |
| Equalizer.EnabledToggled | src/hooks/useEqualizer.ts:193 | only the enabled flag flips |
| Equalizer.ToggleTwiceRestores | src/hooks/useEqualizer.ts:193 | two toggles give the state back |
| Equalizer.PresetRow | src/hooks/useEqualizer.ts:155-164 | every row of the table has ten entries |
| Equalizer.LookupPreset | src/hooks/useEqualizer.ts:155-166 | a row is found exactly for the eight table names; a name inherited from the object prototype (and not in the table) yields an inherited member; the Flat and Rock rows |
| Equalizer.ChosenGains | src/hooks/useEqualizer.ts:166 | table names choose their row; other names fall back to Flat, except inherited names, which choose no row |
| Equalizer.PresetGain | src/hooks/useEqualizer.ts:171-173 | a table name gives its row's entry at a band index; any other name gives 0, through the Flat row or an inherited member; outside the ten indices it is 0 |
| Equalizer.PresetApplied | src/hooks/useEqualizer.ts:168-174 | preset records the given name; each band's gain is the chosen entry or 0; frequencies, labels and the enabled flag stay; bass and treble take the first and last entries |
| Equalizer.RockPreset | src/hooks/useEqualizer.ts:157 | applying "Rock" to ten bands yields the Rock row, bass 5 and treble 4 |
| Equalizer.UnknownPresetIsFlat | src/hooks/useEqualizer.ts:166-174 | a name outside the table and the prototype gives the same result as "Flat", except that preset keeps the given name; all gains are 0 |
| Equalizer.PresetMirrorsBassAndTreble | src/hooks/useEqualizer.ts:171-173 | after any preset, bass equals the first band's gain and treble the last's; a table name puts its row on every band |
| Equalizer.BuildFilters | src/hooks/useEqualizer.ts:46-53 | one filter per band in order; low shelf first, high shelf last, peaking between; Q 1; the band's frequency and gain |
| Equalizer.ConnectChain | src/hooks/useEqualizer.ts:56-62 | `Wired`: n + 2 connections forming one path source, filter 0 … filter n-1, gain node, destination, each starting where the previous ended |
| Equalizer.PresetFilterGain | src/hooks/useEqualizer.ts:178-180 | one filter's pushed gain: the table row's entry at a band index, 0 for a name outside the table and the prototype, the filter's own gain for an inherited name or outside the ten indices |
| Equalizer.PresetPushed | src/hooks/useEqualizer.ts:177-185 | only gains change; for a table name filter i takes entry i of its row; for an unknown name every filter takes 0; for an inherited name nothing changes; filters beyond the ten entries never change |
| Equalizer.Equalizer.constructor | src/hooks/useEqualizer.ts:5-28 | the initial state; no chain, no gain node, no context |
| Equalizer.Equalizer.InitializeAudioContext | src/hooks/useEqualizer.ts:30-69 | no-op without an element, when already initialised, or without an audio API; otherwise opens the context, sets gain 1, builds the filters from the current bands and wires the path source → filters → gain → destination (`Wired`); a chain is built at most once |
| Equalizer.Equalizer.UpdateBand | src/hooks/useEqualizer.ts:71-103 | the state takes BandUpdated; a live chain's filter at that index takes the gain; nothing else changes |
| Equalizer.Equalizer.SetBass | src/hooks/useEqualizer.ts:105-124 | the state takes BassSet; only filter 0 of a live chain takes the value |
| Equalizer.Equalizer.SetTreble | src/hooks/useEqualizer.ts:126-146 | the state takes TrebleSet; only the last filter of a live chain takes the value |
| Equalizer.Equalizer.SetPreset | src/hooks/useEqualizer.ts:148-189 | the state takes PresetApplied and the filters PresetPushed; the chain's shape is kept |
| Equalizer.Equalizer.ToggleEqualizer | src/hooks/useEqualizer.ts:191-205 | the flag flips; an existing gain node is set from the flag as it was before the flip: 0.5 if enabled, 1 otherwise |
| Equalizer.Equalizer.ResetEqualizer | src/hooks/useEqualizer.ts:207-213 | the same as applying the preset "Flat" |
| Equalizer.Equalizer.Close | src/hooks/useEqualizer.ts:246-256 | an open context is closed; the context is never closed twice; nothing else changes |
| AudioPlayer.InitialPlayerState | src/hooks/useAudioPlayer.ts:6-15 | no track, paused, time 0, volume 0.7, unshuffled, repeat none, the given playlist, index -1 |
| AudioPlayer.TrackPlayed | src/hooks/useAudioPlayer.ts:35-40 | the track becomes current and playing; the index is updated only when one is given; nothing else changes |
| AudioPlayer.Loaded | src/hooks/useAudioPlayer.ts:33-41 | the element takes the track's URL, restarts at position 0 and plays; volume unchanged |
| AudioPlayer.PlayPauseToggled | src/hooks/useAudioPlayer.ts:45-57 | without a current track nothing changes; otherwise only isPlaying flips |
| AudioPlayer.NextIndex | src/hooks/useAudioPlayer.ts:62-64 | from -1 or any larger index: the valid index (currentIndex + 1) % length; from a valid index, the successor, wrapping to 0 after the last; below -1 the remainder is not positive |
| AudioPlayer.PreviousIndex | src/hooks/useAudioPlayer.ts:75-77 | from 0 or below: the last index; otherwise the predecessor; valid whenever the current index is at most the length |
| AudioPlayer.NextRepeatMode | src/hooks/useAudioPlayer.ts:106 | none → all → one → none; never the same mode |
| AudioPlayer.RepeatCycleHasPeriodThree | src/hooks/useAudioPlayer.ts:106 | three steps return to the start; two never do |
| AudioPlayer.RepeatToggled | src/hooks/useAudioPlayer.ts:103-108 | only the repeat mode advances |
| AudioPlayer.ShuffleToggled | src/hooks/useAudioPlayer.ts:99-101 | only the shuffle flag flips |
| AudioPlayer.TogglesRestore | src/hooks/useAudioPlayer.ts:99-108 | shuffle twice, or repeat three times, gives the state back |
| AudioPlayer.PlaylistReplaced | src/hooks/useAudioPlayer.ts:110-113 | only the playlist changes (the current track and index are kept) |
| AudioPlayer.EndOfTrackAction | src/hooks/useAudioPlayer.ts:120-129 | restart exactly for repeat one; advance exactly for repeat all or an index before the last; stop exactly for repeat none at or past the last index |
| AudioPlayer.Player.constructor | src/hooks/useAudioPlayer.ts:4-15 | the initial state, with the element's volume set to it |
| AudioPlayer.Player.PlayTrack | src/hooks/useAudioPlayer.ts:32-43 | without a track nothing changes; otherwise TrackPlayed and Loaded |
| AudioPlayer.Player.TogglePlayPause | src/hooks/useAudioPlayer.ts:45-57 | the state takes PlayPauseToggled; with a track, the element pauses if it was playing and plays otherwise |
| AudioPlayer.Player.NextTrack | src/hooks/useAudioPlayer.ts:59-70 | nothing on an empty playlist; unshuffled, plays NextIndex when that is a valid index; shuffled, plays some index of the playlist |
| AudioPlayer.Player.PreviousTrack | src/hooks/useAudioPlayer.ts:72-83 | nothing on an empty playlist; otherwise plays PreviousIndex when that is a valid index, and does nothing otherwise |
| AudioPlayer.Player.SetVolume | src/hooks/useAudioPlayer.ts:85-90 | accepted exactly for a volume in [0, 1]; then the element and the state take it; otherwise nothing changes |
| AudioPlayer.Player.SeekTo | src/hooks/useAudioPlayer.ts:92-97 | the element's position and the state's time both take the value |
| AudioPlayer.Player.ToggleShuffle | src/hooks/useAudioPlayer.ts:99-101 | the state takes ShuffleToggled; the element is untouched |
| AudioPlayer.Player.ToggleRepeat | src/hooks/useAudioPlayer.ts:103-108 | the state takes RepeatToggled; the element is untouched |
| AudioPlayer.Player.ReplacePlaylist | src/hooks/useAudioPlayer.ts:110-113 | the state takes PlaylistReplaced; the element is untouched |
| AudioPlayer.Player.HandleTimeUpdate | src/hooks/useAudioPlayer.ts:23-30 | the state's time takes the element's position; nothing else changes |
| AudioPlayer.Player.HandleLoadStart | src/hooks/useAudioPlayer.ts:131-133 | the state's time goes back to 0; nothing else changes |
| AudioPlayer.Player.HandleEnded | src/hooks/useAudioPlayer.ts:120-129 | after the element stops: repeat one rewinds and replays; advancing behaves as NextTrack; stopping clears isPlaying |
| FileScanner.ExtensionFrom | src/hooks/useFileScanner.ts:15 | searching leftwards, a result starts an extension and none is missed |
| FileScanner.ExtensionStart | src/hooks/useFileScanner.ts:15 | where the final extension starts (a '.' followed by one or more characters, none '.' or '/'); at most one position qualifies |
| FileScanner.StripExtension | src/hooks/useFileScanner.ts:15 | a prefix of the name; equal to the name exactly when there is no extension; otherwise what was cut is the extension |
| FileScanner.StripExtensionExamples | src/hooks/useFileScanner.ts:47 | "a.b.mp3" → "a.b"; "track", "notes." and "dir.v2/track" unchanged |
| FileScanner.SplitsWhenIncluded | src/hooks/useFileScanner.ts:22-25 | a split has two or more pieces exactly when the separator occurs |
| FileScanner.DeriveArtistTitleMeaning | src/hooks/useFileScanner.ts:16-27 | with " - ": the artist is the trimmed text before the first one and the title the trimmed text up to the next; without: the title is the trimmed name and the artist unknown |
| FileScanner.DeriveArtistTitle | src/hooks/useFileScanner.ts:16-27 | the title never starts or ends with whitespace, nor does a derived artist; without a " - " the artist is unknown |
| FileScanner.DaftPunkExample | src/hooks/useFileScanner.ts:15-24 | "Daft Punk - One More Time.mp3" gives artist "Daft Punk" and title "One More Time" |
| FileScanner.FormatOf | src/hooks/useFileScanner.ts:38 | the format is never empty |
| FileScanner.FormatOfMeaning | src/hooks/useFileScanner.ts:38 | without '/': "UNKNOWN"; otherwise the upper-cased text between the first '/' and the next (or the end), or "UNKNOWN" if that text is empty |
| FileScanner.FormatMpegExample | src/hooks/useFileScanner.ts:38 | "audio/mpeg" gives "MPEG" |
| FileScanner.FormatEmptySubtypeExample | src/hooks/useFileScanner.ts:57 | "audio/" gives "UNKNOWN" |
| FileScanner.DurationOf | src/hooks/useFileScanner.ts:34 | the probed duration; 0 when it is NaN or the probe failed |
| FileScanner.CreateTrack | src/hooks/useFileScanner.ts:8-65 | every field on both paths: a blob URL, the size, format and file name, unknown album; a loaded probe uses the " - " convention and the duration; an error uses the untrimmed name without extension, an unknown artist and duration 0 |
| FileScanner.AudioTracks | src/hooks/useFileScanner.ts:86-99 | a batch yields no more tracks than files |
| FileScanner.AudioTracksComeFromAudio | src/hooks/useFileScanner.ts:89-98 | every track was created from an audio file of the batch |
| FileScanner.AudioTracksKeepAudio | src/hooks/useFileScanner.ts:89-98 | every audio file of the batch yields its track |
| FileScanner.IsAudio | src/hooks/useFileScanner.ts:91 | the batch filter: the MIME type starts with "audio/" (a definition, used by the lemmas about AudioTracks) |
| FileScanner.NoAudioNoTracks | src/hooks/useFileScanner.ts:91 | a batch with no audio file yields nothing |
| FileScanner.AudioTracksAppend | src/hooks/useFileScanner.ts:101 | two batches in turn yield their tracks in order |
| FileScanner.CollectTracks | src/hooks/useFileScanner.ts:87-99 | the loop's tracks are exactly AudioTracks of the batch |
| FileScanner.SampleTracks | src/hooks/useFileScanner.ts:111-132 | two tracks, "sample-1" (180 s) and "sample-2" (210 s), with the demo URL, WAV format, artist and album |
| FileScanner.BlobUrls | src/hooks/useFileScanner.ts:139-143 | no more URLs than tracks |
| FileScanner.RevokedAreBlobUrls | src/hooks/useFileScanner.ts:139-143 | only blob URLs held by the library are revoked |
| FileScanner.BlobUrlsAllRevoked | src/hooks/useFileScanner.ts:139-143 | every blob URL of the library is revoked |
| FileScanner.BlobUrlsOnce | src/hooks/useFileScanner.ts:139-143 | when no two tracks share a blob URL (the samples' shared non-blob URL is allowed), each blob URL is revoked exactly once |
| FileScanner.SamplesKeepBlobUrlsDistinct | src/hooks/useFileScanner.ts:134 | appending the sample batch keeps the library's blob URLs distinct, so BlobUrlsOnce applies to libraries holding samples |
| FileScanner.ScanKeepsBlobUrlsDistinct | src/hooks/useFileScanner.ts:101 | a scanned batch whose object URLs are pairwise distinct and new to the library keeps its blob URLs distinct, so BlobUrlsOnce applies to libraries built by scanning |
| FileScanner.SamplesAreNotRevoked | src/hooks/useFileScanner.ts:119 | the sample tracks' URL is not a blob URL, so clearing revokes nothing for them |
| FileScanner.Library.constructor | src/hooks/useFileScanner.ts:5 | the library starts empty |
| FileScanner.Library.ScanFiles | src/hooks/useFileScanner.ts:67-108 | the batch's audio tracks are appended after the existing ones, which are unchanged |
| FileScanner.Library.AddSampleTracks | src/hooks/useFileScanner.ts:110-135 | appends the two sample tracks |
| FileScanner.Library.ClearLibrary | src/hooks/useFileScanner.ts:137-145 | revokes the library's blob URLs in order, then empties it |
| MusicLibrary.Matches | src/components/MusicLibrary.tsx:24-26 | the search condition: the lower-cased query occurs in the lower-cased title, artist or album (a definition, used by FilterTracks) |
| MusicLibrary.FilterTracks | src/components/MusicLibrary.tsx:23-27 | exactly the matching tracks, each as often as in the input |
| MusicLibrary.EmptyQueryKeepsAll | src/components/MusicLibrary.tsx:23-27 | an empty search keeps every track, in order |
| MusicLibrary.FilterIdempotent | src/components/MusicLibrary.tsx:23-27 | filtering twice with the same text is filtering once |
| MusicLibrary.Compare | src/components/MusicLibrary.tsx:30-41 | the comparator: collation of the chosen text field, or the difference of durations (a definition; CompareAntisymmetric states its property) |
| MusicLibrary.CompareAntisymmetric | src/components/MusicLibrary.tsx:30-41 | for an antisymmetric collation, the comparator's sign flips when its arguments swap |
| MusicLibrary.Insert | src/components/MusicLibrary.tsx:29 | inserting adds exactly that track |
| MusicLibrary.InsertKeepsSorted | src/components/MusicLibrary.tsx:29 | inserting into a sorted list keeps it sorted |
| MusicLibrary.SortTracks | src/components/MusicLibrary.tsx:29-42 | the result is a permutation of the input |
| MusicLibrary.SortTracksSorted | src/components/MusicLibrary.tsx:29-42 | the result is sorted: every neighbour pair is in the comparator's order |
| MusicLibrary.SortedPairwise | src/components/MusicLibrary.tsx:29-42 | with a transitive collation, a sorted list is in order for every pair, not just neighbours |
| MusicLibrary.SortByDurationNondecreasing | src/components/MusicLibrary.tsx:37-38 | sorting by duration gives non-decreasing durations throughout |
| MusicLibrary.DurationsInOrder | src/components/MusicLibrary.tsx:38 | a list sorted by duration is non-decreasing for every pair |
| MusicLibrary.FilteredAndSorted | src/components/MusicLibrary.tsx:22-43 | exactly the matching tracks, each as often as in the input, in comparator order |
| MusicLibrary.EmptyQueryListsAll | src/components/MusicLibrary.tsx:22-43 | with no search text, the view lists every library track |

## Left out

- The React and JSX layer is not modelled. This covers rendering, view mode, the picker's DOM input element, and hook memoisation and dependency lists. The effects' listener registration is also out (`useAudioPlayer.ts:115-145`; `useEqualizer.ts:215-243`, which registers `canplay` and `loadeddata` to trigger `InitializeAudioContext`). The handlers themselves are methods.
- Web Audio signal processing and the `play()` promise are not modelled. The media element is a record of source, playing flag, position and volume.
- React batches state updates, and callbacks read stale closure values. The model applies each update at once, except `toggleEqualizer`'s gain, which reads the flag from before the flip as the source does.
- Initialising the equalizer can throw inside the `try` (`useEqualizer.ts:65-68`). The model has no failure path there; only "no audio API" is a parameter.
- The `audioRef.current` null guards are not modelled: the player always has its element. The equalizer's element check is a parameter of `InitializeAudioContext`.
- The `typeof` checks and the `try/catch` blocks around property assignments never fire on well-typed calls, so they are not modelled.
- Platform values are parameters: `Date.now()`, `Math.random()` and `URL.createObjectURL`. The metadata probe's duration is one too.
- A shuffled next index is a nondeterministic choice of a valid index. Its uniform distribution is not modelled.
- `isScanning` (`useFileScanner.ts:68,106`) is not modelled. The picker's cancel and an empty selection are both the empty batch.
- The duration probe's promise never rejects, so the per-file `catch` in `scanFiles` never fires. It settles only when `loadedmetadata` or `error` fires, though.
- A probe that never settles stalls the whole batch: the sequential `await` (`useFileScanner.ts:93`) never returns, and nothing is appended. `Library.ScanFiles` always completes; every file's probe outcome is given.
- Floating point is not modelled: times, durations and gains are integers. `FormatTime` therefore has no fractional-seconds case.
- FormatTime: the contract speaks only of non-negative times. The negative case is shown by one example instead.
- ToLower: maps ASCII letters only. Unicode case mapping is not modelled.
- ToUpper: likewise maps ASCII letters only.
- SortTracks: is specified as a permutation that is sorted, not as the engine's particular order. Stability among ties is not proved.
- `localeCompare` is the parameter `collate`. Its locale rules are not modelled.
- The sort comparator's `default: return 0` branch (`MusicLibrary.tsx:39-40`) is unreachable, because `sortBy` has only four values.
- The platform clamping the seek position to the media length is not modelled.
- The element's `timeupdate` position is an input.
- Names inherited from `Object.prototype` are the fixed set of twelve standard members, no more.
