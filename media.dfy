/** The media helpers (`MediaService`): file-name classification, the temporary-file
    sweep, and the recording and playback flags. The recorder, the player and the
    file system are libraries; what they do arrives as oracle parameters. */
module Media {
  import opened Wrappers
  import opened Entities
  import opened JsText

  /** The text after the last `.` of `s`, or all of `s` when it has none:
      `s.split('.').pop()`. */
  function AfterLastDot(s: string): (r: string)
    ensures |r| <= |s| && r == s[|s| - |r|..]
    ensures '.' !in r
    ensures |r| < |s| ==> s[|s| - |r| - 1] == '.'
    decreases |s|
  {
    if |s| == 0 then ""
    else if s[|s| - 1] == '.' then ""
    else
      var init := s[..|s| - 1];
      var ri := AfterLastDot(init);
      var r := ri + [s[|s| - 1]];
      assert s[|s| - |r|..] == init[|init| - |ri|..] + [s[|s| - 1]];
      assert |r| < |s| ==> s[|s| - |r| - 1] == init[|init| - |ri| - 1];
      r
  }

  /** Whatever precedes the last dot, the text after it is what `pop()` yields. */
  lemma {:induction false} AfterLastDotOf(base: string, ext: string)
    requires '.' !in ext
    ensures AfterLastDot(base + "." + ext) == ext
    decreases |ext|
  {
    var s := base + "." + ext;
    if |ext| == 0 {
      assert s[|s| - 1] == '.';
    } else {
      var init := ext[..|ext| - 1];
      assert forall k :: 0 <= k < |init| ==> init[k] == ext[k];
      AfterLastDotOf(base, init);
      assert s[..|s| - 1] == base + "." + init;
      assert s[|s| - 1] == ext[|ext| - 1];
      assert ext == init + [ext[|ext| - 1]];
    }
  }

  /** A name without a dot is split into itself alone. */
  lemma {:induction false} AfterLastDotNone(s: string)
    requires '.' !in s
    ensures AfterLastDot(s) == s
    decreases |s|
  {
    if |s| > 0 {
      var init := s[..|s| - 1];
      assert forall k :: 0 <= k < |init| ==> init[k] == s[k];
      AfterLastDotNone(init);
      assert s[|s| - 1] in s;
      assert s == init + [s[|s| - 1]];
    }
  }

  /** `getFileExtension(fileName)`: a dot-free, lower-case suffix of the name, up
      to case. */
  function FileExtension(fileName: string): (r: string)
    ensures |r| <= |fileName| && r == ToLower(fileName[|fileName| - |r|..])
    ensures '.' !in r && forall k :: 0 <= k < |r| ==> !('A' <= r[k] <= 'Z')
  {
    var after := AfterLastDot(fileName);
    assert forall k :: 0 <= k < |after| ==> after[k] != '.';
    ToLower(after)
  }

  /** A name without a dot is its own extension, lower-cased. */
  lemma ExtensionWithoutDot(fileName: string)
    requires '.' !in fileName
    ensures FileExtension(fileName) == ToLower(fileName)
  {
    AfterLastDotNone(fileName);
  }

  /** The extension is the lower-cased text after the last dot, whatever precedes it. */
  lemma ExtensionAfterLastDot(base: string, ext: string)
    requires '.' !in ext
    ensures FileExtension(base + "." + ext) == ToLower(ext)
  {
    AfterLastDotOf(base, ext);
  }

  const ImageExtensions: seq<string> := ["jpg", "jpeg", "png", "gif", "bmp", "webp"]
  const AudioExtensions: seq<string> := ["mp3", "wav", "aac", "mp4", "m4a", "ogg"]
  const VideoExtensions: seq<string> := ["mp4", "avi", "mov", "wmv", "flv", "webm"]

  predicate IsImageFile(fileName: string) {
    FileExtension(fileName) in ImageExtensions
  }

  predicate IsAudioFile(fileName: string) {
    FileExtension(fileName) in AudioExtensions
  }

  predicate IsVideoFile(fileName: string) {
    FileExtension(fileName) in VideoExtensions
  }

  /** The three lists overlap only in `mp4`, which counts as both audio and video;
      no image extension is audio or video. */
  lemma ExtensionListsOverlap(ext: string)
    ensures ext in AudioExtensions && ext in VideoExtensions <==> ext == "mp4"
    ensures ext in ImageExtensions ==> ext !in AudioExtensions && ext !in VideoExtensions
  {
  }

  /** The same, for the three classifications of a file name. */
  lemma ClassificationOverlap(fileName: string)
    ensures IsAudioFile(fileName) && IsVideoFile(fileName) <==> FileExtension(fileName) == "mp4"
    ensures IsImageFile(fileName) ==> !IsAudioFile(fileName) && !IsVideoFile(fileName)
  {
    ExtensionListsOverlap(FileExtension(fileName));
  }

  /** The classification ignores the case of the extension and anything before the
      last dot. */
  lemma UpperCaseImage()
    ensures IsImageFile("holiday.photo.JPG")
  {
    ExtensionAfterLastDot("holiday.photo", "JPG");
    assert ToLower("JPG") == "jpg";
  }

  lemma UpperCaseAudioAndVideo()
    ensures IsAudioFile("voice.MP4") && IsVideoFile("voice.MP4")
  {
    ExtensionAfterLastDot("voice", "MP4");
    assert ToLower("MP4") == "mp4";
  }

  lemma OnlyTheLastDotCounts()
    ensures !IsImageFile("jpg.txt")
  {
    ExtensionAfterLastDot("jpg", "txt");
    assert ToLower("txt") == "txt";
  }

  /** A directory entry as `RNFS.readDir` lists it. */
  datatype DirEntry = DirEntry(name: string, path: string)

  /** The names `cleanupTempFiles` treats as temporary. */
  predicate IsTempFileName(name: string) {
    StartsWith(name, "audio_") || StartsWith(name, "temp_audio_") || StartsWith(name, "video_")
  }

  /** `files.filter(file => IsTempFileName(file.name))`. */
  function TempFiles(files: seq<DirEntry>): seq<DirEntry> {
    if |files| == 0 then []
    else if IsTempFileName(files[0].name) then [files[0]] + TempFiles(files[1..])
    else TempFiles(files[1..])
  }

  /** The filter keeps exactly the temporary entries. */
  lemma {:induction false} TempFilesMembers(files: seq<DirEntry>)
    ensures forall f :: f in TempFiles(files) <==> f in files && IsTempFileName(f.name)
  {
    if |files| > 0 {
      TempFilesMembers(files[1..]);
      assert files == [files[0]] + files[1..];
    }
  }

  function Paths(files: seq<DirEntry>): (ps: seq<string>)
    ensures |ps| == |files| && forall k :: 0 <= k < |files| ==> ps[k] == files[k].path
  {
    seq(|files|, k requires 0 <= k < |files| => files[k].path)
  }

  /** The name `startAudioRecording` gives a recording started at `nowMs`. */
  function RecordingFileName(nowMs: Time): string {
    "audio_" + Decimal(nowMs) + ".mp4"
  }

  /** A recording is classified as audio, and the sweep treats it as temporary. */
  lemma RecordingIsTemporaryAudio(cachesDir: string, nowMs: Time)
    ensures IsTempFileName(RecordingFileName(nowMs))
    ensures IsAudioFile(cachesDir + "/" + RecordingFileName(nowMs))
  {
    var digits := Decimal(nowMs);
    assert RecordingFileName(nowMs)[..6] == "audio_";
    assert cachesDir + "/" + RecordingFileName(nowMs) == (cachesDir + "/audio_" + digits) + "." + "mp4";
    ExtensionAfterLastDot(cachesDir + "/audio_" + digits, "mp4");
    assert ToLower("mp4") == "mp4";
  }

  datatype MediaError =
    | PermissionDenied   // 'Audio permission not granted'
    | NotRecording       // 'Not recording'
    | LibraryFailed      // the recorder, the player or the file system threw
    | UnlinkFailed(path: string)

  /** What a stopped recording yields: its path, its base64 data and the duration
      text the recorder reports. */
  datatype Recording = Recording(path: string, data: string, duration: string)

  /** The calls the service makes on the audio player, in order. */
  datatype PlayerCall = StartPlayer(path: string) | StopPlayer

  class MediaService {
    var isRecording: bool
    var isPlaying: bool
    var currentRecordingPath: Option<string>
    /** Whether a playback listener is registered. */
    var listening: bool
    var playerCalls: seq<PlayerCall>

    /** A recording in progress always has a path. */
    predicate Valid()
      reads this
    {
      isRecording ==> currentRecordingPath.Some?
    }

    constructor ()
      ensures Valid()
      ensures !isRecording && !isPlaying && currentRecordingPath.None? && !listening && playerCalls == []
    {
      isRecording, isPlaying, currentRecordingPath := false, false, None;
      listening, playerCalls := false, [];
    }

    /** `startAudioRecording()`. `audioChecked` is the permission check's answer and
        `audioGranted` the answer to the request made when the check fails;
        `recorderStarts` is whether the recorder starts. The path is recorded before
        the recorder is started, so it stays set when the recorder fails. */
    method StartAudioRecording(audioChecked: bool, audioGranted: bool, cachesDir: string, nowMs: Time, recorderStarts: bool)
      returns (r: Result<string, MediaError>)
      modifies this
      ensures old(Valid()) ==> Valid()
      ensures !audioChecked && !audioGranted ==>
        r == Err(PermissionDenied) && isRecording == old(isRecording) && currentRecordingPath == old(currentRecordingPath)
      ensures (audioChecked || audioGranted) ==>
        currentRecordingPath == Some(cachesDir + "/" + RecordingFileName(nowMs))
      ensures (audioChecked || audioGranted) && !recorderStarts ==>
        r == Err(LibraryFailed) && isRecording == old(isRecording)
      ensures r.Ok? <==> (audioChecked || audioGranted) && recorderStarts
      ensures r.Ok? ==> isRecording && r.value == cachesDir + "/" + RecordingFileName(nowMs)
      ensures isPlaying == old(isPlaying) && listening == old(listening) && playerCalls == old(playerCalls)
    {
      if !audioChecked && !audioGranted {
        return Err(PermissionDenied);
      }
      var path := cachesDir + "/" + RecordingFileName(nowMs);
      currentRecordingPath := Some(path);
      if !recorderStarts {
        return Err(LibraryFailed);
      }
      isRecording := true;
      r := Ok(path);
    }

    /** `stopAudioRecording()`. `stopResult` is the recorder's duration text, `None`
        when stopping fails; `fileData` is the base64 content read back, `None` when
        the read fails. */
    method StopAudioRecording(stopResult: Option<string>, fileData: Option<string>)
      returns (r: Result<Recording, MediaError>)
      modifies this
      ensures old(Valid()) ==> Valid()
      ensures !old(isRecording) ==> r == Err(NotRecording) && isRecording == old(isRecording)
      ensures old(isRecording) && stopResult.None? ==> r == Err(LibraryFailed) && isRecording
      ensures old(isRecording) && stopResult.Some? ==> !isRecording
      ensures r.Ok? <==> old(isRecording) && stopResult.Some? && fileData.Some? && currentRecordingPath.Some?
      ensures old(Valid()) ==> (r.Ok? <==> old(isRecording) && stopResult.Some? && fileData.Some?)
      ensures r.Ok? ==> r.value == Recording(currentRecordingPath.value, fileData.value, stopResult.value)
      ensures currentRecordingPath == old(currentRecordingPath)
      ensures isPlaying == old(isPlaying) && listening == old(listening) && playerCalls == old(playerCalls)
    {
      if !isRecording {
        return Err(NotRecording);
      }
      if stopResult.None? {
        return Err(LibraryFailed);
      }
      isRecording := false;
      if currentRecordingPath.None? || fileData.None? {
        return Err(LibraryFailed);
      }
      r := Ok(Recording(currentRecordingPath.value, fileData.value, stopResult.value));
    }

    /** `stopAudio()`: stops the player and removes the listener; `ok` is whether the
        player stops. */
    method StopAudio(ok: bool) returns (r: Result<(), MediaError>)
      modifies this
      ensures playerCalls == old(playerCalls) + [StopPlayer]
      ensures r.Ok? <==> ok
      ensures ok ==> !isPlaying && !listening
      ensures !ok ==> isPlaying == old(isPlaying) && listening == old(listening) && r == Err(LibraryFailed)
      ensures isRecording == old(isRecording) && currentRecordingPath == old(currentRecordingPath)
    {
      playerCalls := playerCalls + [StopPlayer];
      if !ok {
        return Err(LibraryFailed);
      }
      listening := false;
      isPlaying := false;
      r := Ok(());
    }

    /** `playAudio(audioPath)`: a playback in progress is stopped first (a failure
        to stop is swallowed), then the player starts and a listener is registered.
        `stopOk` and `startOk` are the player's answers. */
    method PlayAudio(audioPath: string, stopOk: bool, startOk: bool) returns (r: Result<(), MediaError>)
      modifies this
      ensures playerCalls == old(playerCalls) + (if old(isPlaying) then [StopPlayer] else []) + [StartPlayer(audioPath)]
      ensures r.Ok? <==> startOk
      ensures startOk ==> isPlaying && listening
      ensures !startOk ==>
        r == Err(LibraryFailed) && isPlaying == (old(isPlaying) && !stopOk) && listening == (if old(isPlaying) && stopOk then false else old(listening))
      ensures isRecording == old(isRecording) && currentRecordingPath == old(currentRecordingPath)
    {
      if isPlaying {
        var _ := StopAudio(stopOk);
      }
      playerCalls := playerCalls + [StartPlayer(audioPath)];
      if !startOk {
        return Err(LibraryFailed);
      }
      isPlaying := true;
      listening := true;
      r := Ok(());
    }

    /** The playback listener: at the end of the track it stops the player. */
    method OnPlaybackProgress(currentPosition: nat, duration: nat, stopOk: bool)
      modifies this
      ensures old(listening) && currentPosition == duration ==>
        playerCalls == old(playerCalls) + [StopPlayer] &&
        (stopOk ==> !isPlaying && !listening) &&
        (!stopOk ==> isPlaying == old(isPlaying) && listening)
      ensures !(old(listening) && currentPosition == duration) ==>
        playerCalls == old(playerCalls) && isPlaying == old(isPlaying) && listening == old(listening)
      ensures isRecording == old(isRecording) && currentRecordingPath == old(currentRecordingPath)
    {
      if listening && currentPosition == duration {
        var _ := StopAudio(stopOk);
      }
    }

    /** `cleanupTempFiles()`. `listing` is what `readDir` returns for the caches
        directory (`None` when it fails) and `unlinkFails` the paths whose unlink
        throws. The temporary entries are unlinked in listing order; the first
        failure ends the sweep. */
    method CleanupTempFiles(listing: Option<seq<DirEntry>>, unlinkFails: set<string>)
      returns (unlinked: seq<string>, r: Result<nat, MediaError>)
      ensures listing.None? ==> unlinked == [] && r == Err(LibraryFailed)
      ensures listing.Some? ==>
        var temps := TempFiles(listing.value);
        match FindFirst(Paths(temps), (p: string) => p in unlinkFails)
        case None => r == Ok(|temps|) && unlinked == Paths(temps)
        case Some(i) => r == Err(UnlinkFailed(temps[i].path)) && unlinked == Paths(temps)[..i]
    {
      if listing.None? {
        return [], Err(LibraryFailed);
      }
      var temps := TempFiles(listing.value);
      var paths := Paths(temps);
      unlinked := [];
      var i := 0;
      while i < |temps|
        invariant 0 <= i <= |temps|
        invariant unlinked == paths[..i]
        invariant forall k :: 0 <= k < i ==> paths[k] !in unlinkFails
      {
        if temps[i].path in unlinkFails {
          assert FindFirst(paths, (p: string) => p in unlinkFails) == Some(i);
          return unlinked, Err(UnlinkFailed(temps[i].path));
        }
        unlinked := unlinked + [temps[i].path];
        i := i + 1;
      }
      assert unlinked == paths;
      r := Ok(|temps|);
    }
  }
}
