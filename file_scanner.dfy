/**
 * File ingestion (src/hooks/useFileScanner.ts): turning picked files into
 * tracks, and the library list they are appended to.
 *
 * Deriving a track from a file is a function of the file's name, MIME type
 * and size, the metadata probe's outcome, and the two values the platform
 * makes up (a fresh id and the object URL's suffix). The library is a class
 * whose list the three operations replace, with a ghost log of the object
 * URLs it has revoked.
 */
module FileScanner {
  import opened Wrappers
  import opened MusicTypes
  import opened JsString

  const UnknownArtist := "Unknown Artist"
  const UnknownAlbum := "Unknown Album"
  const UnknownFormat := "UNKNOWN"
  const TitleSeparator := " - "
  const BlobScheme := "blob:"
  const FileCover := "https://images.pexels.com/photos/167092/pexels-photo-167092.jpeg?auto=compress&cs=tinysrgb&w=300"

  /** A file the user picked. */
  datatype PickedFile = PickedFile(name: string, mimeType: string, size: int)

  /**
   * The duration probe's outcome: the metadata loaded, with the element's
   * duration (`None` where it is NaN), or the element reported an error.
   */
  datatype Probe = MetadataLoaded(duration: Option<int>) | ProbeError

  /** One picked file with what the platform supplies for it. */
  datatype Ingest = Ingest(file: PickedFile, probe: Probe, idSuffix: string, urlSuffix: string)

  // ---------------------------------------------------------------------------
  // Removing the extension: name.replace(/\.[^/.]+$/, "")

  /** Position `k` starts a final extension: a '.' followed by one or more characters, none '.' or '/'. */
  predicate IsExtensionAt(name: string, k: int) {
    0 <= k < |name| - 1 && name[k] == '.'
    && forall j :: k < j < |name| ==> name[j] != '.' && name[j] != '/'
  }

  /** Searches leftwards from `j`, every character after `j` being neither '.' nor '/'. */
  function ExtensionFrom(name: string, j: int): (r: Option<nat>)
    requires -1 <= j < |name|
    requires forall i :: j < i < |name| ==> name[i] != '.' && name[i] != '/'
    ensures r.Some? ==> IsExtensionAt(name, r.value)
    ensures r.None? ==> forall k :: k <= j ==> !IsExtensionAt(name, k)
    decreases j + 1
  {
    if j < 0 then None
    else if name[j] == '/' then None
    else if name[j] == '.' then (if j < |name| - 1 then Some(j) else None)
    else ExtensionFrom(name, j - 1)
  }

  /** Where the final extension starts, if the name has one; at most one position qualifies. */
  function ExtensionStart(name: string): (r: Option<nat>)
    ensures r.Some? ==> IsExtensionAt(name, r.value)
    ensures r.Some? ==> forall k :: IsExtensionAt(name, k) ==> k == r.value
    ensures r.None? ==> forall k :: !IsExtensionAt(name, k)
  {
    ExtensionFrom(name, |name| - 1)
  }

  /**
   * The name without its final extension: a prefix of the name, shorter
   * exactly when the name ends in an extension, which is what was cut.
   */
  function StripExtension(name: string): (r: string)
    ensures r <= name
    ensures r == name <==> forall k :: !IsExtensionAt(name, k)
    ensures r != name ==> IsExtensionAt(name, |r|)
  {
    match ExtensionStart(name)
    case None => name
    case Some(k) => name[..k]
  }

  lemma StripExtensionExamples()
    ensures StripExtension("a.b.mp3") == "a.b"
    ensures StripExtension("track") == "track"
    ensures StripExtension("notes.") == "notes."
    ensures StripExtension("dir.v2/track") == "dir.v2/track"
  {
    assert IsExtensionAt("a.b.mp3", 3);
    assert !IsExtensionAt("notes.", 5);
    assert "dir.v2/track"[6] == '/';
  }

  // ---------------------------------------------------------------------------
  // Title and artist from the name

  /** A split yields two or more pieces exactly when the separator occurs. */
  lemma SplitsWhenIncluded(s: string, sep: string)
    requires |sep| > 0
    ensures |Split(s, sep)| >= 2 <==> Includes(s, sep)
  {
  }

  /**
   * Title and artist from the name without extension (lines 16-27), by the
   * " - " convention: the title never starts or ends with whitespace, nor
   * does a derived artist, and without a " - " the artist is unknown;
   * `DeriveArtistTitleMeaning` states exactly what it yields.
   */
  function DeriveArtistTitle(base: string): (r: (string, string))
    ensures Trimmed(r.1)
    ensures !Includes(base, TitleSeparator) ==> r.0 == UnknownArtist
    ensures Includes(base, TitleSeparator) ==> Trimmed(r.0)
  {
    SplitsWhenIncluded(base, TitleSeparator);
    var parts := Split(base, TitleSeparator);
    if |parts| >= 2 then (Trim(parts[0]), Trim(parts[1])) else (UnknownArtist, Trim(parts[0]))
  }

  /**
   * With a " - " in the name, the artist is the trimmed text before the
   * first one and the title the trimmed text up to the next one or the end
   * (later pieces are dropped); without, the title is the trimmed name and
   * the artist is unknown.
   */
  lemma DeriveArtistTitleMeaning(base: string)
    ensures !Includes(base, TitleSeparator) ==> DeriveArtistTitle(base) == (UnknownArtist, Trim(base))
    ensures Includes(base, TitleSeparator) ==>
              var i := IndexOf(base, TitleSeparator).value;
              var next := Split(base[i + |TitleSeparator|..], TitleSeparator)[0];
              && DeriveArtistTitle(base) == (Trim(base[..i]), Trim(next))
              && !Includes(base[..i], TitleSeparator)
              && !Includes(next, TitleSeparator)
  {
    var parts := Split(base, TitleSeparator);
    SplitsWhenIncluded(base, TitleSeparator);
    SplitPiecesAreFree(base, TitleSeparator);
    if |parts| >= 2 {
      assert parts[0] in parts && parts[1] in parts;
    }
  }

  /** Where the character `sep[d]` is absent from `s[..m]`, no occurrence of `sep` puts it there. */
  lemma NoOccurrenceBefore(s: string, sep: string, d: nat, m: int)
    requires d < |sep|
    requires forall i :: 0 <= i < m && i < |s| ==> s[i] != sep[d]
    ensures forall j :: 0 <= j && j + d < m ==> !OccursAt(s, sep, j)
  {
    forall j | 0 <= j && j + d < m
      ensures !OccursAt(s, sep, j)
    {
      if j + |sep| <= |s| {
        assert s[j..j + |sep|][d] == s[j + d];
      }
    }
  }

  const DaftPunk := "Daft Punk"
  const OneMoreTime := "One More Time"

  lemma StripDaftPunk()
    ensures StripExtension(DaftPunk + TitleSeparator + OneMoreTime + ".mp3") == DaftPunk + TitleSeparator + OneMoreTime
  {
    var base := DaftPunk + TitleSeparator + OneMoreTime;
    var name := base + ".mp3";
    assert IsExtensionAt(name, |base|);
    assert name[..|base|] == base;
  }

  lemma SplitDaftPunk()
    ensures IndexOf(DaftPunk + TitleSeparator + OneMoreTime, TitleSeparator) == Some(9)
    ensures Split(OneMoreTime, TitleSeparator) == [OneMoreTime]
  {
    var base := DaftPunk + TitleSeparator + OneMoreTime;
    assert base[9..12] == TitleSeparator;
    assert OccursAt(base, TitleSeparator, 9);
    NoOccurrenceBefore(base, TitleSeparator, 1, 10);
    NoOccurrenceBefore(OneMoreTime, TitleSeparator, 1, |OneMoreTime|);
  }

  /** The " - " convention on a sample name. */
  lemma DaftPunkExample()
    ensures DeriveArtistTitle(StripExtension(DaftPunk + TitleSeparator + OneMoreTime + ".mp3")) == (DaftPunk, OneMoreTime)
  {
    StripDaftPunk();
    SplitDaftPunk();
    TrimDaftPunk();
    var base := DaftPunk + TitleSeparator + OneMoreTime;
    assert base[..9] == DaftPunk && base[12..] == OneMoreTime;
    assert Split(base, TitleSeparator) == [DaftPunk, OneMoreTime];
  }

  lemma TrimDaftPunk()
    ensures Trim(DaftPunk) == DaftPunk && Trim(OneMoreTime) == OneMoreTime
  {
    TrimFixesTrimmed(DaftPunk);
    TrimFixesTrimmed(OneMoreTime);
  }

  // ---------------------------------------------------------------------------
  // Format and duration

  /**
   * `type.split('/')[1]?.toUpperCase() || 'UNKNOWN'`: never empty;
   * `FormatOfMeaning` states what it yields.
   */
  function FormatOf(mimeType: string): (r: string)
    ensures |r| > 0
  {
    var parts := Split(mimeType, "/");
    if |parts| >= 2 && parts[1] != "" then ToUpper(parts[1]) else UnknownFormat
  }

  /**
   * The format is the upper-cased text between the first '/' and the next
   * '/' (or the end), or "UNKNOWN" when there is no '/' or that text is
   * empty.
   */
  lemma FormatOfMeaning(mimeType: string)
    ensures !Includes(mimeType, "/") ==> FormatOf(mimeType) == UnknownFormat
    ensures Includes(mimeType, "/") ==>
              var sub := Split(mimeType[IndexOf(mimeType, "/").value + 1..], "/")[0];
              && !Includes(sub, "/")
              && FormatOf(mimeType) == if sub == "" then UnknownFormat else ToUpper(sub)
  {
    var parts := Split(mimeType, "/");
    SplitsWhenIncluded(mimeType, "/");
    SplitPiecesAreFree(mimeType, "/");
    if |parts| >= 2 {
      assert parts[1] in parts;
    }
  }

  /** The subtype of a MIME type, upper-cased. */
  lemma FormatMpegExample()
    ensures FormatOf("audio/mpeg") == "MPEG"
  {
    SplitMpeg();
    UpperMpeg();
  }

  lemma SplitMpeg()
    ensures Split("audio/mpeg", "/") == ["audio", "mpeg"]
  {
    var m := "audio/mpeg";
    assert OccursAt(m, "/", 5);
    NoOccurrenceBefore(m, "/", 0, 5);
    assert IndexOf(m, "/") == Some(5);
    assert m[..5] == "audio" && m[6..] == "mpeg";
    NoOccurrenceBefore("mpeg", "/", 0, 4);
    assert Split("mpeg", "/") == ["mpeg"];
  }

  lemma UpperMpeg()
    ensures ToUpper("mpeg") == "MPEG"
  {
    var u := ToUpper("mpeg");
    assert u[0] == 'M' && u[1] == 'P' && u[2] == 'E' && u[3] == 'G';
  }

  /** An empty subtype falls back to "UNKNOWN". */
  lemma FormatEmptySubtypeExample()
    ensures FormatOf("audio/") == UnknownFormat
  {
    var m := "audio/";
    assert OccursAt(m, "/", 5);
    NoOccurrenceBefore(m, "/", 0, 5);
    assert IndexOf(m, "/") == Some(5);
    assert m[6..] == "";
    assert Split("", "/") == [""];
  }

  /** `audio.duration || 0`: the probed duration, or 0 when it is NaN or the probe failed. */
  function DurationOf(probe: Probe): (d: int)
    ensures probe.ProbeError? ==> d == 0
    ensures probe.MetadataLoaded? && probe.duration.None? ==> d == 0
    ensures probe.MetadataLoaded? && probe.duration.Some? ==> d == probe.duration.value
  {
    match probe
    case MetadataLoaded(Some(d)) => d
    case _ => 0
  }

  // ---------------------------------------------------------------------------
  // createTrackFromFile

  /**
   * The track for one file. Both paths take the blob URL, size, format and
   * file name; on a loaded probe title and artist follow the " - "
   * convention, on an error the title is the untrimmed name without
   * extension, the artist unknown and the duration 0. The album is always
   * unknown.
   */
  function CreateTrack(f: Ingest): (t: Track)
    ensures t.id == "file-" + f.idSuffix
    ensures t.audioUrl == BlobScheme + f.urlSuffix && StartsWith(t.audioUrl, BlobScheme)
    ensures t.album == UnknownAlbum && t.coverUrl == FileCover
    ensures t.fileSize == Some(f.file.size) && t.filePath == Some(f.file.name)
    ensures t.format == Some(FormatOf(f.file.mimeType))
    ensures t.bitrate == None && t.sampleRate == None && t.genre == None && t.year == None
    ensures f.probe.MetadataLoaded? ==>
              (t.artist, t.title) == DeriveArtistTitle(StripExtension(f.file.name))
              && t.duration == DurationOf(f.probe)
    ensures f.probe.ProbeError? ==>
              t.title == StripExtension(f.file.name) && t.artist == UnknownArtist && t.duration == 0
  {
    var base := StripExtension(f.file.name);
    var (artist, title) :=
      if f.probe.MetadataLoaded? then DeriveArtistTitle(base) else (UnknownArtist, base);
    Track(
      id := "file-" + f.idSuffix,
      title := title,
      artist := artist,
      album := UnknownAlbum,
      duration := DurationOf(f.probe),
      coverUrl := FileCover,
      audioUrl := BlobScheme + f.urlSuffix,
      fileSize := Some(f.file.size),
      format := Some(FormatOf(f.file.mimeType)),
      bitrate := None,
      sampleRate := None,
      genre := None,
      year := None,
      filePath := Some(f.file.name))
  }

  // ---------------------------------------------------------------------------
  // scanFiles

  /** `file.type.startsWith('audio/')`. */
  predicate IsAudio(f: PickedFile) {
    StartsWith(f.mimeType, "audio/")
  }

  /**
   * The tracks a batch yields (lines 87-99): one per audio file, in the
   * batch's order; every other file is skipped.
   */
  function AudioTracks(files: seq<Ingest>): (ts: seq<Track>)
    ensures |ts| <= |files|
  {
    if files == [] then []
    else
      var last := files[|files| - 1];
      AudioTracks(files[..|files| - 1]) + (if IsAudio(last.file) then [CreateTrack(last)] else [])
  }

  /** Every track of a batch was made from one of its audio files. */
  lemma {:induction false} AudioTracksComeFromAudio(files: seq<Ingest>)
    ensures forall t :: t in AudioTracks(files) ==>
              exists k :: 0 <= k < |files| && IsAudio(files[k].file) && t == CreateTrack(files[k])
  {
    if files != [] {
      var init := files[..|files| - 1];
      AudioTracksComeFromAudio(init);
      forall t | t in AudioTracks(files)
        ensures exists k :: 0 <= k < |files| && IsAudio(files[k].file) && t == CreateTrack(files[k])
      {
        if t in AudioTracks(init) {
          var k :| 0 <= k < |init| && IsAudio(init[k].file) && t == CreateTrack(init[k]);
          assert init[k] == files[k];
        } else {
          assert IsAudio(files[|files| - 1].file) && t == CreateTrack(files[|files| - 1]);
        }
      }
    }
  }

  /** Every audio file of a batch yields a track. */
  lemma {:induction false} AudioTracksKeepAudio(files: seq<Ingest>)
    ensures forall k :: 0 <= k < |files| && IsAudio(files[k].file) ==> CreateTrack(files[k]) in AudioTracks(files)
  {
    if files != [] {
      var init, last := files[..|files| - 1], files[|files| - 1];
      var before := AudioTracks(init);
      AudioTracksKeepAudio(init);
      assert AudioTracks(files) == before + (if IsAudio(last.file) then [CreateTrack(last)] else []);
      forall k | 0 <= k < |init| && IsAudio(files[k].file)
        ensures CreateTrack(files[k]) in AudioTracks(files)
      {
        assert init[k] == files[k];
        assert CreateTrack(init[k]) in before;
      }
      if IsAudio(last.file) {
        assert CreateTrack(last) in AudioTracks(files);
      }
    }
  }

  /** A batch of files none of which is audio adds nothing. */
  lemma {:induction false} NoAudioNoTracks(files: seq<Ingest>)
    requires forall k :: 0 <= k < |files| ==> !IsAudio(files[k].file)
    ensures AudioTracks(files) == []
  {
    if files != [] {
      NoAudioNoTracks(files[..|files| - 1]);
    }
  }

  /** Ingesting two batches one after the other yields their tracks in order. */
  lemma {:induction false} AudioTracksAppend(a: seq<Ingest>, b: seq<Ingest>)
    ensures AudioTracks(a + b) == AudioTracks(a) + AudioTracks(b)
    decreases |b|
  {
    if b == [] {
      assert a + b == a;
    } else {
      var b', last := b[..|b| - 1], b[|b| - 1];
      assert (a + b)[..|a + b| - 1] == a + b';
      assert (a + b)[|a + b| - 1] == last;
      AudioTracksAppend(a, b');
    }
  }

  /** The loop of `scanFiles`: creates a track for each audio file, in order. */
  method CollectTracks(files: seq<Ingest>) returns (tracks: seq<Track>)
    ensures tracks == AudioTracks(files)
  {
    tracks := [];
    var i := 0;
    while i < |files|
      invariant 0 <= i <= |files|
      invariant tracks == AudioTracks(files[..i])
    {
      var f := files[i];
      assert files[..i + 1][..i] == files[..i];
      if IsAudio(f.file) {
        var track := CreateTrack(f);
        tracks := tracks + [track];
      }
      i := i + 1;
    }
    assert files[..i] == files;
  }

  // ---------------------------------------------------------------------------
  // The sample batch and clearing

  /** The demo tracks' audio URL, written as its scheme and the rest. */
  const SampleUrl := "https:" + "//www.soundjay.com/misc/sounds/bell-ringing-05.wav"

  /** The two demo tracks `addSampleTracks` appends. */
  function SampleTracks(): (ts: seq<Track>)
    ensures |ts| == 2 && ts[0].id == "sample-1" && ts[1].id == "sample-2"
    ensures ts[0].duration == 180 && ts[1].duration == 210
    ensures forall t :: t in ts ==>
              t.audioUrl == SampleUrl && t.format == Some("WAV") && t.artist == "Demo Artist" && t.album == "Demo Album"
  {
    [ Track("sample-1", "Sample Track 1", "Demo Artist", "Demo Album", 180, FileCover,
            SampleUrl, None, Some("WAV"), None, None, None, None, None),
      Track("sample-2", "Sample Track 2", "Demo Artist", "Demo Album", 210,
            "https://images.pexels.com/photos/1105666/pexels-photo-1105666.jpeg?auto=compress&cs=tinysrgb&w=300",
            SampleUrl, None, Some("WAV"), None, None, None, None, None) ]
  }

  /**
   * The URLs clearing the library revokes, in order: the URL of each track
   * whose URL is a blob URL.
   */
  function BlobUrls(ts: seq<Track>): (urls: seq<string>)
    ensures |urls| <= |ts|
  {
    if ts == [] then []
    else
      var last := ts[|ts| - 1];
      BlobUrls(ts[..|ts| - 1]) + (if StartsWith(last.audioUrl, BlobScheme) then [last.audioUrl] else [])
  }

  /** Only blob URLs are revoked, and only ones the library holds. */
  lemma {:induction false} RevokedAreBlobUrls(ts: seq<Track>)
    ensures forall u :: u in BlobUrls(ts) ==>
              StartsWith(u, BlobScheme) && exists k :: 0 <= k < |ts| && ts[k].audioUrl == u
  {
    if ts != [] {
      var init := ts[..|ts| - 1];
      RevokedAreBlobUrls(init);
      forall u | u in BlobUrls(ts)
        ensures StartsWith(u, BlobScheme) && exists k :: 0 <= k < |ts| && ts[k].audioUrl == u
      {
        if u in BlobUrls(init) {
          var k :| 0 <= k < |init| && init[k].audioUrl == u;
          assert ts[k] == init[k];
        } else {
          assert ts[|ts| - 1].audioUrl == u;
        }
      }
    }
  }

  /** Every blob URL the library holds is revoked. */
  lemma {:induction false} BlobUrlsAllRevoked(ts: seq<Track>)
    ensures forall k :: 0 <= k < |ts| && StartsWith(ts[k].audioUrl, BlobScheme) ==> ts[k].audioUrl in BlobUrls(ts)
  {
    if ts != [] {
      var init := ts[..|ts| - 1];
      BlobUrlsAllRevoked(init);
      forall k | 0 <= k < |init| && StartsWith(ts[k].audioUrl, BlobScheme)
        ensures ts[k].audioUrl in BlobUrls(ts)
      {
        assert ts[k] == init[k];
      }
    }
  }

  /** One more track considered adds its URL when and only when it is a blob URL. */
  lemma BlobUrlsStep(ts: seq<Track>, i: nat)
    requires i < |ts|
    ensures BlobUrls(ts[..i + 1]) ==
            BlobUrls(ts[..i]) + (if StartsWith(ts[i].audioUrl, BlobScheme) then [ts[i].audioUrl] else [])
  {
    assert ts[..i + 1][..i] == ts[..i];
  }

  /** No two tracks share a blob URL (other URLs, such as the samples' one, may repeat). */
  predicate DistinctBlobUrls(ts: seq<Track>) {
    forall i, j :: 0 <= i < j < |ts| && StartsWith(ts[i].audioUrl, BlobScheme) ==> ts[i].audioUrl != ts[j].audioUrl
  }

  /** When no two tracks share a blob URL, clearing revokes each blob URL exactly once. */
  lemma {:induction false} BlobUrlsOnce(ts: seq<Track>)
    requires DistinctBlobUrls(ts)
    ensures forall i, j :: 0 <= i < j < |BlobUrls(ts)| ==> BlobUrls(ts)[i] != BlobUrls(ts)[j]
  {
    if ts != [] {
      var init := ts[..|ts| - 1];
      var last := ts[|ts| - 1];
      assert forall k :: 0 <= k < |init| ==> init[k] == ts[k];
      BlobUrlsOnce(init);
      RevokedAreBlobUrls(init);
      var before := BlobUrls(init);
      forall u | u in before ensures u != last.audioUrl {
        var k :| 0 <= k < |init| && init[k].audioUrl == u;
        assert ts[k].audioUrl == u;
      }
    }
  }

  /** Appending the sample batch, however often, keeps the library's blob URLs distinct. */
  lemma SamplesKeepBlobUrlsDistinct(ts: seq<Track>)
    requires DistinctBlobUrls(ts)
    ensures DistinctBlobUrls(ts + SampleTracks())
  {
    var r := ts + SampleTracks();
    assert !StartsWith(SampleUrl, BlobScheme) by {
      assert SampleUrl[0] == 'h';
    }
    forall i, j | 0 <= i < j < |r| && StartsWith(r[i].audioUrl, BlobScheme)
      ensures r[i].audioUrl != r[j].audioUrl
    {
      if j >= |ts| {
        assert r[j].audioUrl == SampleUrl;
      } else {
        assert r[i] == ts[i] && r[j] == ts[j];
      }
    }
  }

  /**
   * Object URLs are unique: the batch's URL suffixes are pairwise distinct,
   * and none of them gives a URL the library already holds.
   */
  predicate FreshObjectUrls(ts: seq<Track>, files: seq<Ingest>) {
    && (forall i, j :: 0 <= i < j < |files| ==> files[i].urlSuffix != files[j].urlSuffix)
    && (forall t, k :: t in ts && 0 <= k < |files| ==> t.audioUrl != BlobScheme + files[k].urlSuffix)
  }

  /** Two URLs of the blob scheme are equal only when their suffixes are. */
  lemma BlobUrlInjective(a: string, b: string)
    requires BlobScheme + a == BlobScheme + b
    ensures a == b
  {
    assert (BlobScheme + a)[|BlobScheme|..] == a;
    assert (BlobScheme + b)[|BlobScheme|..] == b;
  }

  /** A track whose URL the library does not hold keeps its blob URLs distinct. */
  lemma DistinctBlobUrlsSnoc(ts: seq<Track>, t: Track)
    requires DistinctBlobUrls(ts)
    requires forall x :: x in ts ==> x.audioUrl != t.audioUrl
    ensures DistinctBlobUrls(ts + [t])
  {
    var r := ts + [t];
    forall i, j | 0 <= i < j < |r| && StartsWith(r[i].audioUrl, BlobScheme)
      ensures r[i].audioUrl != r[j].audioUrl
    {
      assert r[i] == ts[i] && ts[i] in ts;
      if j < |ts| {
        assert r[j] == ts[j];
      }
    }
  }

  /**
   * Scanning a batch with fresh object URLs keeps the library's blob URLs
   * distinct, so `BlobUrlsOnce` applies to libraries built by scanning.
   */
  lemma {:induction false} ScanKeepsBlobUrlsDistinct(ts: seq<Track>, files: seq<Ingest>)
    requires DistinctBlobUrls(ts)
    requires FreshObjectUrls(ts, files)
    ensures DistinctBlobUrls(ts + AudioTracks(files))
  {
    if files != [] {
      var init, last := files[..|files| - 1], files[|files| - 1];
      assert forall k :: 0 <= k < |init| ==> init[k] == files[k];
      ScanKeepsBlobUrlsDistinct(ts, init);
      var before := ts + AudioTracks(init);
      if IsAudio(last.file) {
        var t := CreateTrack(last);
        AudioTracksComeFromAudio(init);
        forall x | x in before
          ensures x.audioUrl != t.audioUrl
        {
          if x !in ts {
            var k :| 0 <= k < |init| && IsAudio(init[k].file) && x == CreateTrack(init[k]);
            assert files[k].urlSuffix != last.urlSuffix;
            if x.audioUrl == t.audioUrl {
              BlobUrlInjective(init[k].urlSuffix, last.urlSuffix);
            }
          }
        }
        DistinctBlobUrlsSnoc(before, t);
        assert ts + AudioTracks(files) == before + [t];
      } else {
        assert ts + AudioTracks(files) == before;
      }
    }
  }

  /** The sample tracks are never revoked. */
  lemma SamplesAreNotRevoked()
    ensures BlobUrls(SampleTracks()) == []
  {
    var s := SampleTracks();
    assert !StartsWith(SampleUrl, BlobScheme) by {
      assert SampleUrl[0] == 'h';
    }
    assert s[..1][..0] == [];
  }

  class Library {
    /** `scannedFiles`: the library, in the order tracks arrived. */
    var scannedFiles: seq<Track>
    /** The object URLs passed to `URL.revokeObjectURL`, in call order. */
    ghost var revoked: seq<string>

    constructor ()
      ensures scannedFiles == [] && revoked == []
    {
      scannedFiles := [];
      revoked := [];
    }

    /**
     * `scanFiles` for a picked batch (an empty batch stands for a cancelled
     * picker): the batch's audio tracks are appended after the existing
     * ones, which stay as they were.
     */
    method ScanFiles(files: seq<Ingest>)
      modifies this
      ensures scannedFiles == old(scannedFiles) + AudioTracks(files)
      ensures scannedFiles[..|old(scannedFiles)|] == old(scannedFiles)
      ensures revoked == old(revoked)
    {
      if |files| > 0 {
        var tracks := CollectTracks(files);
        scannedFiles := scannedFiles + tracks;
      }
      assert files == [] ==> AudioTracks(files) == [];
    }

    /** `addSampleTracks`: appends the two sample tracks, so repeated calls repeat their ids. */
    method AddSampleTracks()
      modifies this
      ensures scannedFiles == old(scannedFiles) + SampleTracks()
      ensures |scannedFiles| == |old(scannedFiles)| + 2
      ensures revoked == old(revoked)
    {
      scannedFiles := scannedFiles + SampleTracks();
    }

    /** `clearLibrary`: revokes every blob URL of the library, once per track, then empties it. */
    method ClearLibrary()
      modifies this
      ensures revoked == old(revoked) + BlobUrls(old(scannedFiles))
      ensures scannedFiles == []
    {
      var i := 0;
      while i < |scannedFiles|
        invariant 0 <= i <= |scannedFiles|
        invariant scannedFiles == old(scannedFiles)
        invariant revoked == old(revoked) + BlobUrls(scannedFiles[..i])
      {
        var track := scannedFiles[i];
        BlobUrlsStep(scannedFiles, i);
        if StartsWith(track.audioUrl, BlobScheme) {
          revoked := revoked + [track.audioUrl];
        }
        i := i + 1;
      }
      assert scannedFiles[..i] == scannedFiles;
      scannedFiles := [];
    }
  }
}
