/** The video generator's effects: rendering the frames into the frames
    directory, choosing the encoder command, cleaning up, and uploading the
    result to tmpfiles.org.

    The file system is a `LocalDisk` object; the background image load, the
    presence of the music file, the encoder run, the upload reply and the
    clock are inputs. The encoder itself, image decoding and PNG encoding
    are not modelled: a frame file holds the `Scene` it shows. */
module JobVideo {
  import opened Wrappers
  import opened Strings
  import opened Timeline

  /** The input pattern the encoder reads the frames with. */
  const FramePattern: string := "frames/frame_%06d.png"
  const MusicPath: string := "assets/reelmusic.mp3"
  const TmpFilesUploadUrl: string := "https://tmpfiles.org/api/v1/upload"

  /** The frames directory and the videos next to the script. */
  class LocalDisk {
    var framesDirExists: bool
    /** Files in the frames directory, by name. */
    var frames: map<string, Scene>
    /** Video files in the script's directory. */
    var videos: set<string>

    /** A directory that does not exist holds no files. */
    predicate Valid()
      reads this
    {
      !framesDirExists ==> frames == map[]
    }

    constructor (framesDirExists: bool, frames: map<string, Scene>, videos: set<string>)
      requires !framesDirExists ==> frames == map[]
      ensures Valid()
      ensures this.framesDirExists == framesDirExists && this.frames == frames && this.videos == videos
    {
      this.framesDirExists := framesDirExists;
      this.frames := frames;
      this.videos := videos;
    }
  }

  // --------------------------------------------------------------- frames

  /** The frame files of the first `n` frames. */
  function RenderedFrames(layers: seq<TextLayer>, n: nat): map<string, Scene>
  {
    if n == 0 then map[]
    else RenderedFrames(layers, n - 1)[FrameFileName(n - 1) := SceneAt(layers, FrameTime(n - 1))]
  }

  /** The rendered files are exactly one per frame, named after the frame
      and showing the scene at that frame's time. */
  lemma RenderedFramesSpec(layers: seq<TextLayer>, n: nat)
    requires n <= TotalFrames
    ensures forall name :: name in RenderedFrames(layers, n) <==> exists i :: 0 <= i < n && name == FrameFileName(i)
    ensures forall i :: 0 <= i < n ==> RenderedFrames(layers, n)[FrameFileName(i)] == SceneAt(layers, FrameTime(i))
  {
    RenderedFramesNames(layers, n);
    RenderedFramesScenes(layers, n);
  }

  lemma {:induction false} RenderedFramesNames(layers: seq<TextLayer>, n: nat)
    ensures forall name :: name in RenderedFrames(layers, n) <==> exists i :: 0 <= i < n && name == FrameFileName(i)
  {
    if n > 0 {
      RenderedFramesNames(layers, n - 1);
      var prev := RenderedFrames(layers, n - 1);
      var last := FrameFileName(n - 1);
      assert RenderedFrames(layers, n).Keys == prev.Keys + {last};
      forall name
        ensures name in RenderedFrames(layers, n) <==> exists i :: 0 <= i < n && name == FrameFileName(i)
      {
        if exists i :: 0 <= i < n && name == FrameFileName(i) {
          var i :| 0 <= i < n && name == FrameFileName(i);
          if i < n - 1 {
            assert name in prev;
          }
        }
      }
    }
  }

  lemma {:induction false} RenderedFramesScenes(layers: seq<TextLayer>, n: nat)
    requires n <= TotalFrames
    ensures forall i :: 0 <= i < n ==> FrameFileName(i) in RenderedFrames(layers, n)
    ensures forall i :: 0 <= i < n ==> RenderedFrames(layers, n)[FrameFileName(i)] == SceneAt(layers, FrameTime(i))
  {
    if n > 0 {
      RenderedFramesScenes(layers, n - 1);
      var m := RenderedFrames(layers, n);
      forall i | 0 <= i < n - 1 ensures FrameFileName(i) != FrameFileName(n - 1) {
        FrameFileNamesDistinct(i, n - 1);
      }
    }
  }

  /** No two frames share a file: there are as many files as frames. */
  lemma {:induction false} RenderedFramesCount(layers: seq<TextLayer>, n: nat)
    requires n <= TotalFrames
    ensures |RenderedFrames(layers, n)| == n
  {
    if n > 0 {
      RenderedFramesCount(layers, n - 1);
      RenderedFramesSpec(layers, n - 1);
      var name := FrameFileName(n - 1);
      forall i | 0 <= i < n - 1 ensures FrameFileName(i) != name {
        FrameFileNamesDistinct(i, n - 1);
      }
      assert name !in RenderedFrames(layers, n - 1);
    }
  }

  /** Writing a file after laying new files over old ones is laying the
      written file over as well. */
  lemma UnionThenWrite(before: map<string, Scene>, written: map<string, Scene>, name: string, scene: Scene)
    ensures (before + written)[name := scene] == before + written[name := scene]
  {
  }

  /** The frame loop of `generateJobAlertVideo`: create the frames directory
      if needed and write one file per frame. Files already in the directory
      under other names stay. */
  method RenderFrames(disk: LocalDisk, layers: seq<TextLayer>)
    requires disk.Valid()
    modifies disk
    ensures disk.Valid() && disk.framesDirExists
    ensures disk.frames == old(disk.frames) + RenderedFrames(layers, TotalFrames)
    ensures disk.videos == old(disk.videos)
  {
    if !disk.framesDirExists {
      disk.framesDirExists := true;
    }
    var frame := 0;
    while frame < TotalFrames
      invariant 0 <= frame <= TotalFrames
      invariant disk.framesDirExists && disk.videos == old(disk.videos)
      invariant disk.frames == old(disk.frames) + RenderedFrames(layers, frame)
    {
      var progress := FrameTime(frame);
      var frameFilename := FrameFileName(frame);
      UnionThenWrite(old(disk.frames), RenderedFrames(layers, frame), frameFilename, SceneAt(layers, progress));
      disk.frames := disk.frames[frameFilename := SceneAt(layers, progress)];
      frame := frame + 1;
    }
  }

  /** `cleanupFrames`: delete every file of the frames directory, then the
      directory; nothing happens when it does not exist. */
  method CleanupFrames(disk: LocalDisk)
    requires disk.Valid()
    modifies disk
    ensures disk.Valid() && !disk.framesDirExists && disk.frames == map[]
    ensures disk.videos == old(disk.videos)
  {
    if disk.framesDirExists {
      var files := disk.frames.Keys;
      while files != {}
        invariant disk.frames.Keys == files
        invariant disk.framesDirExists && disk.videos == old(disk.videos)
        decreases |files|
      {
        var file :| file in files;
        disk.frames := disk.frames - {file};
        files := files - {file};
      }
      disk.framesDirExists := false;
    }
  }

  // -------------------------------------------------------------- encoder

  /** A fluent-ffmpeg command: inputs, input options, output options and the
      output path. */
  datatype EncoderCommand = EncoderCommand(
    inputs: seq<string>, inputOptions: seq<string>, outputOptions: seq<string>, output: string)

  /** The encoder command, with the music track when the music file exists. */
  function EncoderCommandFor(musicPresent: bool, videoPath: string): EncoderCommand
  {
    if musicPresent then
      EncoderCommand([FramePattern, MusicPath], ["-framerate", Decimal(Fps)],
                     ["-c:v libx264", "-c:a aac", "-pix_fmt yuv420p", "-r", Decimal(Fps),
                      "-t", Decimal(DurationSeconds), "-shortest"], videoPath)
    else
      EncoderCommand([FramePattern], ["-framerate", Decimal(Fps)],
                     ["-c:v libx264", "-pix_fmt yuv420p", "-r", Decimal(Fps), "-t", Decimal(DurationSeconds)],
                     videoPath)
  }

  /** Both variants encode H.264 in yuv420p at 30 frames per second, cut at
      30 seconds, reading the frames at 30 per second; the AAC track and
      `-shortest` are there exactly when the music is. */
  lemma EncoderOptions(musicPresent: bool, videoPath: string)
    ensures var c := EncoderCommandFor(musicPresent, videoPath);
      && c.inputs[0] == FramePattern && c.inputOptions == ["-framerate", "30"]
      && "-c:v libx264" in c.outputOptions && "-pix_fmt yuv420p" in c.outputOptions
      && (exists k :: 0 <= k < |c.outputOptions| - 1 && c.outputOptions[k] == "-r" && c.outputOptions[k + 1] == "30")
      && (exists k :: 0 <= k < |c.outputOptions| - 1 && c.outputOptions[k] == "-t" && c.outputOptions[k + 1] == "30")
      && (MusicPath in c.inputs <==> musicPresent)
      && ("-c:a aac" in c.outputOptions <==> musicPresent)
      && ("-shortest" in c.outputOptions <==> musicPresent)
      && c.output == videoPath
  {
    assert Decimal(Fps) == "30" && Decimal(DurationSeconds) == "30";
    var c := EncoderCommandFor(musicPresent, videoPath);
    if musicPresent {
      assert c.outputOptions[3] == "-r" && c.outputOptions[4] == "30";
      assert c.outputOptions[5] == "-t" && c.outputOptions[6] == "30";
    } else {
      assert c.outputOptions[2] == "-r" && c.outputOptions[3] == "30";
      assert c.outputOptions[4] == "-t" && c.outputOptions[5] == "30";
    }
  }

  /** How the encoder run ended: the `end` event, or the `error` event with
      its message and whether it left a partial video file behind. */
  datatype EncoderRun = Ended | Errored(message: string, leftPartialVideo: bool)

  // --------------------------------------------------------------- upload

  /** The JSON answer of tmpfiles.org: `status` and `data.url`. */
  datatype TmpFilesBody = TmpFilesBody(status: Option<string>, url: Option<string>)

  /** The upload request's reply, or the exception it raised. */
  datatype TmpFilesReply = TmpFilesAnswered(ok: bool, httpStatus: int, body: TmpFilesBody) | TmpFilesThrew(message: string)

  datatype UploadError =
    | HttpError(httpStatus: int)
    | UploadRejected(body: TmpFilesBody)
    | NoUrl
    | UploadRequestError(message: string)

  /** `uploadToTmpFiles`: the direct download link, or why there is none. */
  method UploadToTmpFiles(reply: TmpFilesReply) returns (r: Result<string, UploadError>)
    ensures r.Ok? <==> reply.TmpFilesAnswered? && reply.ok && reply.body.status == Some("success") && reply.body.url.Some?
    ensures r.Ok? ==> r.value == ReplaceFirst(reply.body.url.value, "tmpfiles.org/", "tmpfiles.org/dl/")
    ensures reply.TmpFilesAnswered? && !reply.ok ==> r == Err(HttpError(reply.httpStatus))
    ensures reply.TmpFilesAnswered? && reply.ok && reply.body.status != Some("success") ==> r == Err(UploadRejected(reply.body))
    ensures reply.TmpFilesAnswered? && reply.ok && reply.body.status == Some("success") && reply.body.url.None? ==> r == Err(NoUrl)
    ensures reply.TmpFilesThrew? ==> r == Err(UploadRequestError(reply.message))
  {
    match reply {
      case TmpFilesThrew(m) =>
        r := Err(UploadRequestError(m));
      case TmpFilesAnswered(ok, httpStatus, result) =>
        if !ok {
          r := Err(HttpError(httpStatus));
        } else if result.status == Some("success") {
          match result.url {
            case Some(url) =>
              var directUrl := ReplaceFirst(url, "tmpfiles.org/", "tmpfiles.org/dl/");
              r := Ok(directUrl);
            case None =>
              r := Err(NoUrl);
          }
        } else {
          r := Err(UploadRejected(result));
        }
    }
  }

  /** A tmpfiles.org page link becomes its direct download link. */
  lemma DirectLink(id: string)
    ensures ReplaceFirst("https://tmpfiles.org/" + id, "tmpfiles.org/", "tmpfiles.org/dl/") == "https://tmpfiles.org/dl/" + id
  {
    var s := "https://tmpfiles.org/" + id;
    var pat := "tmpfiles.org/";
    assert s[8..8 + |pat|] == pat;
    forall j | 0 <= j < 8 ensures !OccursAt(s, pat, j) {
      if j + |pat| <= |s| {
        assert s[j..j + |pat|][1] == s[j + 1];
        assert s[j..j + |pat|][0] == s[j];
      }
    }
    assert s[..8] + "tmpfiles.org/dl/" + s[8 + |pat|..] == "https://tmpfiles.org/dl/" + id;
  }

  // ---------------------------------------------------------- the whole run

  /** What `generateJobAlertVideo` settles with. */
  datatype VideoOutcome =
    | Resolved(filename: string, downloadUrl: Option<string>, error: Option<string>)
    | Rejected(message: string)

  /** The outside-visible steps of a run, in order. */
  datatype Effect = FramesWritten | EncoderStarted(command: EncoderCommand) | FramesRemoved | UploadRequested | VideoDeleted

  /** `job-alert-video-${Date.now()}.mp4`. */
  function VideoFileName(now: nat): string
  {
    "job-alert-video-" + Decimal(now) + ".mp4"
  }

  /** The encoder's `end` handler: remove the frames, upload the video and
      delete it whether or not the upload worked; always resolves. */
  method OnEncoderEnd(disk: LocalDisk, videoFilename: string, upload: TmpFilesReply)
    returns (outcome: VideoOutcome, effects: seq<Effect>)
    requires disk.Valid() && videoFilename in disk.videos
    modifies disk
    ensures disk.Valid() && !disk.framesDirExists && disk.frames == map[]
    ensures disk.videos == old(disk.videos) - {videoFilename}
    ensures effects == [FramesRemoved, UploadRequested, VideoDeleted]
    ensures outcome.Resolved? && outcome.filename == videoFilename
    ensures outcome.downloadUrl.Some? <==> outcome.error.None?
    ensures outcome.error.Some? ==> outcome.error.value == "Upload failed"
    ensures outcome.downloadUrl.Some? <==>
              upload.TmpFilesAnswered? && upload.ok && upload.body.status == Some("success") && upload.body.url.Some?
    ensures outcome.downloadUrl.Some? ==>
              outcome.downloadUrl.value == ReplaceFirst(upload.body.url.value, "tmpfiles.org/", "tmpfiles.org/dl/")
  {
    CleanupFrames(disk);
    effects := [FramesRemoved, UploadRequested];
    var uploaded := UploadToTmpFiles(upload);
    match uploaded {
      case Ok(downloadUrl) =>
        disk.videos := disk.videos - {videoFilename};
        effects := effects + [VideoDeleted];
        outcome := Resolved(videoFilename, Some(downloadUrl), None);
      case Err(_) =>
        if videoFilename in disk.videos {
          disk.videos := disk.videos - {videoFilename};
          effects := effects + [VideoDeleted];
        }
        outcome := Resolved(videoFilename, None, Some("Upload failed"));
    }
  }

  /** The encoder's `error` handler: remove the frames and the video file if
      there is one, and reject with the encoder's message. */
  method OnEncoderError(disk: LocalDisk, videoFilename: string, message: string)
    returns (outcome: VideoOutcome, effects: seq<Effect>)
    requires disk.Valid()
    modifies disk
    ensures disk.Valid() && !disk.framesDirExists && disk.frames == map[]
    ensures disk.videos == old(disk.videos) - {videoFilename}
    ensures effects == [FramesRemoved] + (if videoFilename in old(disk.videos) then [VideoDeleted] else [])
    ensures outcome == Rejected(message)
  {
    CleanupFrames(disk);
    effects := [FramesRemoved];
    if videoFilename in disk.videos {
      disk.videos := disk.videos - {videoFilename};
      effects := effects + [VideoDeleted];
    }
    outcome := Rejected(message);
  }

  /** `generateJobAlertVideo`: render the frames, run the encoder, then its
      `end` or `error` handler. A background image that fails to load
      rejects before anything is written. Either way the run leaves no
      frames and no video file behind. */
  method GenerateJobAlertVideo(
    disk: LocalDisk,
    companyName: string, designation: string, location: string, batch: string, applyLink: string,
    dateText: string, now: nat, backgroundLoadError: Option<string>, musicPresent: bool,
    encoder: EncoderRun, upload: TmpFilesReply)
    returns (outcome: VideoOutcome, effects: seq<Effect>)
    requires disk.Valid()
    modifies disk
    ensures disk.Valid()
    ensures backgroundLoadError.Some? ==>
      && outcome == Rejected(backgroundLoadError.value) && effects == []
      && disk.framesDirExists == old(disk.framesDirExists) && disk.frames == old(disk.frames)
      && disk.videos == old(disk.videos)
    ensures backgroundLoadError.None? ==>
      && !disk.framesDirExists && disk.frames == map[]
      && disk.videos == old(disk.videos) - {VideoFileName(now)}
      && |effects| >= 3
      && effects[..3] == [FramesWritten, EncoderStarted(EncoderCommandFor(musicPresent, VideoFileName(now))), FramesRemoved]
    ensures backgroundLoadError.None? && encoder.Errored? ==>
      && outcome == Rejected(encoder.message)
      && (VideoDeleted in effects <==> encoder.leftPartialVideo || VideoFileName(now) in old(disk.videos))
    ensures backgroundLoadError.None? && encoder.Ended? ==>
      && effects[3..] == [UploadRequested, VideoDeleted]
      && outcome.Resolved? && outcome.filename == VideoFileName(now)
      && (outcome.downloadUrl.Some? <==> outcome.error.None?)
      && (outcome.error.Some? ==> outcome.error.value == "Upload failed")
      && (outcome.downloadUrl.Some? <==>
            upload.TmpFilesAnswered? && upload.ok && upload.body.status == Some("success") && upload.body.url.Some?)
      && (outcome.downloadUrl.Some? ==>
            outcome.downloadUrl.value == ReplaceFirst(upload.body.url.value, "tmpfiles.org/", "tmpfiles.org/dl/"))
  {
    if backgroundLoadError.Some? {
      return Rejected(backgroundLoadError.value), [];
    }
    var layers := JobLayers(companyName, designation, location, batch, applyLink, dateText);
    RenderFrames(disk, layers);

    var videoFilename := VideoFileName(now);
    var command := EncoderCommandFor(musicPresent, videoFilename);
    var handled: seq<Effect>;
    match encoder {
      case Ended =>
        disk.videos := disk.videos + {videoFilename};
        outcome, handled := OnEncoderEnd(disk, videoFilename, upload);
      case Errored(message, leftPartialVideo) =>
        if leftPartialVideo {
          disk.videos := disk.videos + {videoFilename};
        }
        outcome, handled := OnEncoderError(disk, videoFilename, message);
    }
    effects := [FramesWritten, EncoderStarted(command)] + handled;
  }
}
