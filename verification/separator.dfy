/**
 * The decision and accounting layer of the video/audio separator batch
 * worker (video_audio_separator_batch.py): which sample rate each file's
 * audio gets, where its two streams are written, which ffmpeg commands are
 * tried for the audio and in which order, when a file counts as a success,
 * and what the batch reports whatever order the files finish in. ffmpeg,
 * ffprobe, the file system and the process pool are inputs.
 */
module Separator {
  import opened Wrappers
  import Decimal
  import Paths
  import Completion
  import Media
  import Batch

  // ---------------------------------------------------------------- settings

  /** The "config" object of the job as read from JSON; an absent key is None. */
  datatype Settings = Settings(
    sampleRateMode: Option<string>, sampleRate: Option<int>,
    sampleRates: Option<map<string, int>>, parallelJobs: Option<int>)

  /** The settings with every default filled in. */
  datatype Config = Config(sampleRateMode: string, sampleRate: int, sampleRates: map<string, int>, parallelJobs: int)

  const DefaultSampleRateMode := "single"
  const DefaultSampleRate := 48000
  const DefaultParallelJobs := 4

  /** `settings.get(key, default)` for each key: a present key is taken as given, an absent one gets its default. */
  function ConfigOf(s: Settings): (c: Config)
    ensures s.sampleRateMode.Some? ==> c.sampleRateMode == s.sampleRateMode.value
    ensures s.sampleRateMode.None? ==> c.sampleRateMode == "single"
    ensures s.sampleRate.Some? ==> c.sampleRate == s.sampleRate.value
    ensures s.sampleRate.None? ==> c.sampleRate == 48000
    ensures s.sampleRates.Some? ==> c.sampleRates == s.sampleRates.value
    ensures s.sampleRates.None? ==> c.sampleRates == map[]
    ensures s.parallelJobs.Some? ==> c.parallelJobs == s.parallelJobs.value
    ensures s.parallelJobs.None? ==> c.parallelJobs == 4
  {
    Config(
      s.sampleRateMode.GetOr(DefaultSampleRateMode), s.sampleRate.GetOr(DefaultSampleRate),
      s.sampleRates.GetOr(map[]), s.parallelJobs.GetOr(DefaultParallelJobs))
  }

  /** The sample rate a file's audio is converted to: its own entry in per-file mode, else the single rate. */
  function SampleRateFor(cfg: Config, filename: string): (rate: int)
    ensures cfg.sampleRateMode == "per_file" && filename in cfg.sampleRates ==> rate == cfg.sampleRates[filename]
    ensures !(cfg.sampleRateMode == "per_file" && filename in cfg.sampleRates) ==> rate == cfg.sampleRate
  {
    if cfg.sampleRateMode == "per_file" && filename in cfg.sampleRates then cfg.sampleRates[filename] else cfg.sampleRate
  }

  /** Without a "config" object every file is converted at 48 kHz, whatever its name. */
  lemma DefaultSampleRateEverywhere(filename: string)
    ensures SampleRateFor(ConfigOf(Settings(None, None, None, None)), filename) == 48000
  {
    assert ConfigOf(Settings(None, None, None, None)).sampleRateMode == "single";
  }

  // ------------------------------------------------------------------ probing

  /** What process_single_file uses of `probe_video`'s report. */
  datatype VideoInfo = VideoInfo(frameRate: real, bitRate: int, width: int, height: int, codec: string, hasAudio: bool)

  /**
   * `probe_video`: the metadata, or None when the file has no video stream
   * or ffprobe's report could not be read (the exception case).
   */
  function ProbeVideo(run: Media.ProbeRun): (p: Option<VideoInfo>)
    ensures p.None? <==> run.ProbeRaised? || run.video.None?
    ensures p.Some? ==> && p.value.bitRate == Media.BitRate(run.video.value.bitRate, run.formatBitRate)
                        && p.value.frameRate == run.video.value.frameRate
                        && (p.value.hasAudio <==> run.audio.Some?)
  {
    match run
    case ProbeRaised(_) => None
    case ProbeOutput(video, audio, formatBitRate, _) =>
      if video.None? then None
      else
        var v := video.value;
        Some(VideoInfo(v.frameRate, Media.BitRate(v.bitRate, formatBitRate), v.width, v.height,
                       v.codecName.GetOr("unknown"), audio.Some?))
  }

  // ------------------------------------------------------------- output paths

  function FileId(videoPath: string): string {
    Paths.BaseName(videoPath)
  }

  /** `Path(video_path).stem` */
  function InputName(videoPath: string): string {
    Paths.Stem(FileId(videoPath))
  }

  /** `{input_dir}/{stem}_separated` */
  function OutputDir(inputDir: string, videoPath: string): string {
    Paths.Join(inputDir, InputName(videoPath) + "_separated")
  }

  /** `{output_dir}/{stem}_video.mp4` */
  function VideoOutput(inputDir: string, videoPath: string): string {
    Paths.Join(OutputDir(inputDir, videoPath), InputName(videoPath) + "_video.mp4")
  }

  /** `{output_dir}/{stem}_audio.wav` */
  function AudioOutput(inputDir: string, videoPath: string): string {
    Paths.Join(OutputDir(inputDir, videoPath), InputName(videoPath) + "_audio.wav")
  }

  /** The stem followed by a suffix that does not start with '/' is a relative path component. */
  lemma StemComponent(videoPath: string, suffix: string)
    requires suffix != [] && suffix[0] != '/'
    ensures !Paths.IsAbsolute(InputName(videoPath) + suffix)
  {
    Paths.BaseNameShape(videoPath);
    Paths.StemOfName(FileId(videoPath));
    var stem := InputName(videoPath);
    if stem != [] {
      assert (stem + suffix)[0] == stem[0];
    } else {
      assert stem + suffix == suffix;
    }
  }

  /**
   * The output directory lies inside the input directory; the video and the
   * audio are written into that one directory under the stem's name, as an
   * .mp4 and a .wav, so they never overwrite each other.
   */
  lemma OutputPaths(inputDir: string, videoPath: string)
    ensures var dir, stem := OutputDir(inputDir, videoPath), InputName(videoPath);
      && dir == Paths.DirPrefix(inputDir) + stem + "_separated"
      && VideoOutput(inputDir, videoPath) == Paths.DirPrefix(dir) + stem + "_video.mp4"
      && AudioOutput(inputDir, videoPath) == Paths.DirPrefix(dir) + stem + "_audio.wav"
      && Paths.EndsWith(VideoOutput(inputDir, videoPath), ".mp4")
      && Paths.EndsWith(AudioOutput(inputDir, videoPath), ".wav")
      && VideoOutput(inputDir, videoPath) != AudioOutput(inputDir, videoPath)
  {
    var dir, stem := OutputDir(inputDir, videoPath), InputName(videoPath);
    StemComponent(videoPath, "_separated");
    StemComponent(videoPath, "_video.mp4");
    StemComponent(videoPath, "_audio.wav");
    var head := Paths.DirPrefix(dir) + stem;
    assert VideoOutput(inputDir, videoPath) == head + "_video.mp4";
    assert AudioOutput(inputDir, videoPath) == head + "_audio.wav";
    StreamNames(head);
  }

  lemma StreamNames(head: string)
    ensures Paths.EndsWith(head + "_video.mp4", ".mp4") && Paths.EndsWith(head + "_audio.wav", ".wav")
    ensures head + "_video.mp4" != head + "_audio.wav"
  {
    assert (head + "_video.mp4")[|head| + 1] == 'v';
    assert (head + "_audio.wav")[|head| + 1] == 'a';
  }

  // ------------------------------------------------------------ stream results

  datatype StreamKind = Video | Audio

  /** The record one extraction returns, or the record standing in for audio that is not there. */
  datatype StreamResult =
    | Extracted(fileId: string, kind: StreamKind, output: string, warning: Option<string>)
    | NotExtracted(fileId: string, kind: StreamKind, error: string)
    | Skipped(reason: string)

  /** The record's "success" key. */
  predicate StreamSucceeded(r: StreamResult) {
    r.Extracted? || r.Skipped?
  }

  const NoAudioReason := "No audio stream"

  // ---------------------------------------------------------------- the video

  /** The arguments of extract_video_stream; the frame rate is the text str() gave for it. */
  datatype VideoTask = VideoTask(
    videoPath: string, outputFile: string, frameRateText: string, bitRate: int,
    encoder: string, ffmpegPath: string, fileId: string)

  /** The ffmpeg command of extract_video_stream. */
  function VideoCommand(t: VideoTask): seq<string> {
    [t.ffmpegPath, "-y", "-i", t.videoPath, "-c:v", t.encoder, "-r", t.frameRateText,
     "-b:v", Decimal.IntText(t.bitRate), "-an"]
    + (if t.encoder == Media.SoftwareEncoder then ["-preset", "medium"] else [])
    + [t.outputFile]
  }

  /**
   * The video command re-encodes with the chosen encoder, drops the audio
   * ("-an"), writes the output file last, and asks for the medium preset
   * exactly when the encoder is libx264; its bit-rate argument reads back
   * as the probed bit rate.
   */
  lemma VideoCommandShape(t: VideoTask)
    ensures var cmd := VideoCommand(t);
      && |cmd| >= 12 && cmd[0] == t.ffmpegPath && cmd[4] == "-c:v" && cmd[5] == t.encoder
      && cmd[10] == "-an" && cmd[|cmd| - 1] == t.outputFile
      && (t.encoder == Media.SoftwareEncoder <==> |cmd| == 14)
      && (t.encoder == Media.SoftwareEncoder ==> cmd[11] == "-preset" && cmd[12] == "medium")
      && (t.bitRate >= 0 ==> cmd[8] == "-b:v" && Decimal.AllDigits(cmd[9]) && Decimal.Value(cmd[9]) == t.bitRate)
  {
    Decimal.IntTextValue(t.bitRate);
  }

  /** extract_video_stream given how its ffmpeg run ended. */
  function ExtractVideoStream(t: VideoTask, run: Media.RunOutcome): (r: StreamResult)
    ensures r.Extracted? <==> Media.Succeeded(run)
    ensures r.Extracted? ==> r.fileId == t.fileId && r.kind == Video && r.output == t.outputFile && r.warning.None?
    ensures r.NotExtracted? ==> r.fileId == t.fileId && r.kind == Video && r.error == Media.FailureText(run)
    ensures !r.Skipped?
  {
    if Media.Succeeded(run) then Extracted(t.fileId, Video, t.outputFile, None)
    else NotExtracted(t.fileId, Video, Media.FailureText(run))
  }

  // ---------------------------------------------------------------- the audio

  /** The arguments of extract_audio_stream. */
  datatype AudioTask = AudioTask(videoPath: string, outputFile: string, sampleRate: int, ffmpegPath: string, fileId: string)

  /** What one audio command did: how it ended and, afterwards, the size of its output file in bytes (None: no file). */
  datatype Attempt = Attempt(run: Media.RunOutcome, outputSize: Option<int>)

  /** An output of at most this many bytes is taken as a failed extraction. */
  const MinAudioBytes := 1000

  /** Exit code 0 and an output file larger than 1000 bytes. */
  predicate Accepted(a: Attempt) {
    Media.Succeeded(a.run) && a.outputSize.Some? && a.outputSize.value > MinAudioBytes
  }

  /** The three conversions to WAV, in the order they are tried: 16-bit PCM, float PCM, container forced to MP4. */
  function AudioMethods(t: AudioTask): (methods: seq<seq<string>>)
    ensures |methods| == 3
  {
    var rate := Decimal.IntText(t.sampleRate);
    [[t.ffmpegPath, "-y", "-analyzeduration", "100M", "-probesize", "100M",
      "-i", t.videoPath, "-vn", "-acodec", "pcm_s16le", "-ar", rate, t.outputFile],
     [t.ffmpegPath, "-y", "-i", t.videoPath, "-vn", "-acodec", "pcm_f32le", "-ar", rate, t.outputFile],
     [t.ffmpegPath, "-y", "-f", "mp4", "-i", t.videoPath, "-vn", "-f", "wav", t.outputFile]]
  }

  /** The last resort: copy the audio stream as it is. */
  function RawCopyCommand(t: AudioTask, rawOutput: string): seq<string> {
    [t.ffmpegPath, "-y", "-i", t.videoPath, "-vn", "-acodec", "copy", rawOutput]
  }

  /** Every audio command drops the video ("-vn") and writes its output file last. */
  lemma AudioCommandsShape(t: AudioTask, rawOutput: string)
    ensures forall m :: 0 <= m < 3 ==>
      "-vn" in AudioMethods(t)[m] && AudioMethods(t)[m][|AudioMethods(t)[m]| - 1] == t.outputFile
    ensures var raw := RawCopyCommand(t, rawOutput);
      "-vn" in raw && raw[|raw| - 1] == rawOutput
  {
    var methods := AudioMethods(t);
    assert methods[0][8] == "-vn" && methods[1][4] == "-vn" && methods[2][6] == "-vn";
    assert RawCopyCommand(t, rawOutput)[4] == "-vn";
  }

  const AacWarning := "Could not convert to WAV, saved as AAC"
  const AudioFailure := "All audio extraction methods failed"

  /** As written: `output_file.replace('.wav', '.aac')`, which rewrites every ".wav" in the path, directories included. */
  function RawAudioPathAsWritten(wav: string): string {
    Paths.ReplaceAll(wav, ".wav", ".aac")
  }

  /** The raw copy's path as intended: the WAV path with its ".wav" extension changed to ".aac". */
  function RawAudioPath(wav: string): string {
    if Paths.EndsWith(wav, ".wav") then wav[..|wav| - 4] + ".aac" else wav
  }

  /** The AAC file goes next to the WAV it replaces: same directory, same name, only the extension differs. */
  lemma RawAudioPathBeside(wav: string)
    requires Paths.EndsWith(wav, ".wav")
    ensures var aac := RawAudioPath(wav);
      |aac| == |wav| && aac[..|wav| - 4] == wav[..|wav| - 4] && Paths.EndsWith(aac, ".aac")
  {
    var aac := RawAudioPath(wav);
    assert aac[|aac| - 4..] == ".aac";
  }

  /** The WAV output lies inside the input directory, at least ten characters below it, and ends in ".wav". */
  lemma AudioOutputInside(dir: string, videoPath: string)
    ensures var wav := AudioOutput(dir, videoPath);
      Paths.StartsWith(wav, dir) && |dir| + 10 <= |wav| && Paths.EndsWith(wav, ".wav")
  {
    var outDir := OutputDir(dir, videoPath);
    var name := InputName(videoPath) + "_audio.wav";
    StemComponent(videoPath, "_separated");
    StemComponent(videoPath, "_audio.wav");
    Paths.JoinExtends(dir, InputName(videoPath) + "_separated");
    Paths.JoinExtends(outDir, name);
    Paths.StartsWithTransitive(AudioOutput(dir, videoPath), outDir, dir);
    WavNameEnds(InputName(videoPath));
    Paths.EndsWithTransitive(AudioOutput(dir, videoPath), name, ".wav");
  }

  lemma WavNameEnds(stem: string)
    ensures Paths.EndsWith(stem + "_audio.wav", ".wav")
  {
    var name := stem + "_audio.wav";
    assert name[|name| - 4..] == ".wav";
  }

  /** Replacing ".wav" in `p + ".wav" + rest`, with no '.' in p, turns the first ".wav" into ".aac". */
  lemma ReplaceFirstWav(p: string, rest: string)
    requires '.' !in p
    ensures Paths.StartsWith(RawAudioPathAsWritten(p + ".wav" + rest), p + ".aac")
  {
    var tail := ".wav" + rest;
    assert p + ".wav" + rest == p + tail;
    Paths.ReplaceAllSkipsDotFree(p, tail, ".wav", ".aac");
    assert Paths.StartsWith(tail, ".wav");
    assert tail[4..] == rest;
    var r := Paths.ReplaceAll(rest, ".wav", ".aac");
    assert Paths.ReplaceAll(tail, ".wav", ".aac") == ".aac" + r;
    assert (p + (".aac" + r))[..|p| + 4] == p + ".aac";
  }

  /**
   * The source's replacement leaves the output directory when the input
   * directory contains ".wav": for an input directory `p + ".wav" + t` (no
   * '.' in p) the WAV file and the intended AAC path both lie inside it,
   * but the path the source writes to starts with `p + ".aac"`, a directory
   * that was never created.
   */
  lemma RawPathAsWrittenLeavesDirectory(p: string, t: string, videoPath: string)
    requires '.' !in p
    ensures var dir := p + ".wav" + t;
      var wav := AudioOutput(dir, videoPath);
      && Paths.StartsWith(wav, dir)
      && Paths.StartsWith(RawAudioPath(wav), dir)
      && Paths.StartsWith(RawAudioPathAsWritten(wav), p + ".aac")
      && !Paths.StartsWith(RawAudioPathAsWritten(wav), dir)
  {
    var dir := p + ".wav" + t;
    var wav := AudioOutput(dir, videoPath);
    AudioOutputInside(dir, videoPath);
    RawAudioPathInside(wav, dir);
    Paths.ConcatStartsWith(p + ".wav", t);
    Paths.StartsWithTransitive(wav, dir, p + ".wav");
    var rest := wav[|p| + 4..];
    Paths.PrefixSplit(wav, p + ".wav");
    ReplaceFirstWav(p, rest);
    Paths.PrefixesDisagree(RawAudioPathAsWritten(wav), dir, p + ".aac", p + ".wav", |p| + 1);
  }

  /**
   * Where ".wav" occurs in the WAV path only as its extension, the path the
   * source writes the raw copy to is the intended one.
   */
  lemma RawPathsAgree(wav: string)
    requires Paths.EndsWith(wav, ".wav")
    requires forall i :: 0 <= i < |wav| - 4 ==> !Paths.StartsWith(wav[i..], ".wav")
    ensures RawAudioPathAsWritten(wav) == RawAudioPath(wav)
  {
    var p := wav[..|wav| - 4];
    assert wav == p + ".wav";
    Paths.ReplaceOnlyAtEnd(p, ".wav", ".aac");
  }

  /** A path with at least four characters below a directory keeps that directory when its ".wav" becomes ".aac". */
  lemma RawAudioPathInside(wav: string, dir: string)
    requires Paths.StartsWith(wav, dir) && |dir| + 4 <= |wav|
    ensures Paths.StartsWith(RawAudioPath(wav), dir)
  {
    if Paths.EndsWith(wav, ".wav") {
      assert RawAudioPath(wav)[..|dir|] == wav[..|dir|];
    }
  }

  /** The position of the first accepted attempt, or the number of attempts when none is. */
  function FirstAccepted(attempts: seq<Attempt>): (k: nat)
    ensures k <= |attempts|
    ensures k < |attempts| ==> Accepted(attempts[k])
    ensures forall j :: 0 <= j < k ==> !Accepted(attempts[j])
  {
    if attempts == [] then 0
    else if Accepted(attempts[0]) then 0
    else 1 + FirstAccepted(attempts[1..])
  }

  /** What extract_audio_stream returns, given what its three conversions and the raw copy did. */
  function AudioResult(t: AudioTask, attempts: seq<Attempt>, raw: Attempt): StreamResult {
    if FirstAccepted(attempts) < |attempts| then Extracted(t.fileId, Audio, t.outputFile, None)
    else if Accepted(raw) then Extracted(t.fileId, Audio, RawAudioPathAsWritten(t.outputFile), Some(AacWarning))
    else NotExtracted(t.fileId, Audio, AudioFailure)
  }

  /** The commands extract_audio_stream runs: conversions up to the first accepted one, then the raw copy if none was. */
  function AudioCommandsRun(t: AudioTask, attempts: seq<Attempt>, raw: Attempt): seq<seq<string>>
    requires |attempts| == 3
  {
    var methods := AudioMethods(t);
    var k := FirstAccepted(attempts);
    if k < 3 then methods[..k + 1] else methods + [RawCopyCommand(t, RawAudioPathAsWritten(t.outputFile))]
  }

  /** extract_audio_stream: try the conversions in order, stop at the first that produced a real file, else copy the raw stream. */
  method ExtractAudioStream(t: AudioTask, attempts: seq<Attempt>, raw: Attempt) returns (r: StreamResult, commands: seq<seq<string>>)
    requires |attempts| == 3
    ensures r == AudioResult(t, attempts, raw)
    ensures commands == AudioCommandsRun(t, attempts, raw)
  {
    var methods := AudioMethods(t);
    commands := [];
    for i := 0 to |methods|
      invariant commands == methods[..i]
      invariant forall j :: 0 <= j < i ==> !Accepted(attempts[j])
    {
      commands := commands + [methods[i]];
      if Accepted(attempts[i]) {
        r := Extracted(t.fileId, Audio, t.outputFile, None);
        return;
      }
    }
    var rawOutput := RawAudioPathAsWritten(t.outputFile);
    commands := commands + [RawCopyCommand(t, rawOutput)];
    if Accepted(raw) {
      r := Extracted(t.fileId, Audio, rawOutput, Some(AacWarning));
    } else {
      r := NotExtracted(t.fileId, Audio, AudioFailure);
    }
  }

  /** One of the conversions was accepted. */
  predicate Converted(attempts: seq<Attempt>) {
    exists j :: 0 <= j < |attempts| && Accepted(attempts[j])
  }

  /**
   * The audio is the WAV file when one of the three conversions is accepted;
   * otherwise the raw AAC copy with a warning when that is accepted;
   * otherwise a failure saying all methods failed.
   */
  lemma AudioFallback(t: AudioTask, attempts: seq<Attempt>, raw: Attempt)
    requires |attempts| == 3
    ensures var r := AudioResult(t, attempts, raw);
      var converted := Converted(attempts);
      && (r == Extracted(t.fileId, Audio, t.outputFile, None) <==> converted)
      && (r == Extracted(t.fileId, Audio, RawAudioPathAsWritten(t.outputFile), Some(AacWarning)) <==> !converted && Accepted(raw))
      && (r == NotExtracted(t.fileId, Audio, AudioFailure) <==> !converted && !Accepted(raw))
  {
    var k := FirstAccepted(attempts);
    if k < 3 {
      assert Accepted(attempts[k]);
    }
  }

  /**
   * The conversions are run in their fixed order and the run stops at the
   * first accepted one; the raw copy comes fourth, and only when all three
   * conversions failed.
   */
  lemma AudioCommandsOrder(t: AudioTask, attempts: seq<Attempt>, raw: Attempt)
    requires |attempts| == 3
    ensures var cmds, methods := AudioCommandsRun(t, attempts, raw), AudioMethods(t);
      && 1 <= |cmds| <= 4
      && (forall j :: 0 <= j < |cmds| && j < 3 ==> cmds[j] == methods[j])
      && (|cmds| < 4 ==> Accepted(attempts[|cmds| - 1]))
      && (forall j :: 0 <= j < |cmds| - 1 && j < 3 ==> !Accepted(attempts[j]))
      && (|cmds| == 4 <==> forall j :: 0 <= j < 3 ==> !Accepted(attempts[j]))
      && (|cmds| == 4 ==> cmds[3] == RawCopyCommand(t, RawAudioPathAsWritten(t.outputFile)))
  {
    var k := FirstAccepted(attempts);
    if k < 3 {
      assert Accepted(attempts[k]);
    }
  }

  // ------------------------------------------------------------ one file

  /** The arguments run_batch hands to process_single_file. */
  datatype FileTask = FileTask(videoPath: string, sampleRate: int, ffmpegPath: string, useVideoToolbox: bool)

  /**
   * What the outside world answers while one file is processed: the
   * directory of its absolute path, ffprobe's report, str() of the probed
   * frame rate, the video command's outcome, what each conversion and the
   * raw copy did, and whether the worker raised instead of returning.
   */
  datatype FileWorld = FileWorld(
    inputDir: string, probe: Media.ProbeRun, frameRateText: string, videoRun: Media.RunOutcome,
    audioAttempts: seq<Attempt>, rawAttempt: Attempt, raised: Option<string>)

  predicate WorldFits(world: FileWorld) {
    |world.audioAttempts| == 3
  }

  /** What a worker returns for a file: no probe, the two stream records, or the exception it raised. */
  datatype FileResult =
    | ProbeFailure(file: string)
    | Separated(file: string, outputDir: string, video: StreamResult, audio: StreamResult, success: bool)
    | Crashed(file: string, error: string)

  const ProbeFailureMessage := "Failed to probe video"
  const UnknownError := "Unknown error"

  /** The record's "success" key. */
  predicate FileSucceeded(r: FileResult) {
    r.Separated? && r.success
  }

  /** `result.get("error", "Unknown error")` */
  function ErrorText(r: FileResult): string {
    match r
    case ProbeFailure(_) => ProbeFailureMessage
    case Separated(_, _, _, _, _) => UnknownError
    case Crashed(_, error) => error
  }

  /** `result.get("video")` */
  function VideoRecord(r: FileResult): Option<StreamResult> {
    if r.Separated? then Some(r.video) else None
  }

  /** `result.get("audio")` */
  function AudioRecord(r: FileResult): Option<StreamResult> {
    if r.Separated? then Some(r.audio) else None
  }

  function VideoTaskFor(task: FileTask, world: FileWorld, info: VideoInfo): VideoTask {
    VideoTask(task.videoPath, VideoOutput(world.inputDir, task.videoPath), world.frameRateText, info.bitRate,
              Media.Encoder(task.useVideoToolbox), task.ffmpegPath, FileId(task.videoPath))
  }

  function AudioTaskFor(task: FileTask, world: FileWorld): AudioTask {
    AudioTask(task.videoPath, AudioOutput(world.inputDir, task.videoPath), task.sampleRate, task.ffmpegPath, FileId(task.videoPath))
  }

  /** The audio record of a probed file: extracted when it has an audio stream, skipped otherwise. */
  function AudioRecordFor(task: FileTask, world: FileWorld, info: VideoInfo): StreamResult {
    if info.hasAudio then AudioResult(AudioTaskFor(task, world), world.audioAttempts, world.rawAttempt)
    else Skipped(NoAudioReason)
  }

  /** What process_single_file returns. */
  function SingleFileResult(task: FileTask, world: FileWorld): FileResult {
    var fileId := FileId(task.videoPath);
    match ProbeVideo(world.probe)
    case None => ProbeFailure(fileId)
    case Some(info) =>
      var video := ExtractVideoStream(VideoTaskFor(task, world, info), world.videoRun);
      var audio := AudioRecordFor(task, world, info);
      Separated(fileId, OutputDir(world.inputDir, task.videoPath), video, audio,
                StreamSucceeded(video) && (StreamSucceeded(audio) || audio.Skipped?))
  }

  /** The ffmpeg commands process_single_file runs: none without a probe, else the video command and then the audio ones. */
  function FileCommands(task: FileTask, world: FileWorld): seq<seq<string>>
    requires WorldFits(world)
  {
    match ProbeVideo(world.probe)
    case None => []
    case Some(info) =>
      [VideoCommand(VideoTaskFor(task, world, info))]
      + (if info.hasAudio then AudioCommandsRun(AudioTaskFor(task, world), world.audioAttempts, world.rawAttempt) else [])
  }

  /** process_single_file: probe, name the outputs, extract the video, then the audio if there is any, then decide. */
  method ProcessSingleFile(task: FileTask, world: FileWorld) returns (result: FileResult, commands: seq<seq<string>>)
    requires WorldFits(world)
    ensures result == SingleFileResult(task, world)
    ensures commands == FileCommands(task, world)
  {
    var fileId := Paths.BaseName(task.videoPath);
    var probed := ProbeVideo(world.probe);
    if probed.None? {
      return ProbeFailure(fileId), [];
    }
    var info := probed.value;
    var inputName := Paths.Stem(fileId);
    var outputDir := Paths.Join(world.inputDir, inputName + "_separated");
    var videoOutput := Paths.Join(outputDir, inputName + "_video.mp4");
    var audioOutput := Paths.Join(outputDir, inputName + "_audio.wav");
    var encoder := Media.Encoder(task.useVideoToolbox);
    var videoTask := VideoTask(task.videoPath, videoOutput, world.frameRateText, info.bitRate, encoder, task.ffmpegPath, fileId);
    var video := ExtractVideoStream(videoTask, world.videoRun);
    commands := [VideoCommand(videoTask)];
    var audio;
    if info.hasAudio {
      var audioCommands;
      audio, audioCommands := ExtractAudioStream(
        AudioTask(task.videoPath, audioOutput, task.sampleRate, task.ffmpegPath, fileId),
        world.audioAttempts, world.rawAttempt);
      commands := commands + audioCommands;
    } else {
      audio := Skipped(NoAudioReason);
    }
    var success := StreamSucceeded(video) && (StreamSucceeded(audio) || audio.Skipped?);
    result := Separated(fileId, outputDir, video, audio, success);
  }

  /**
   * A file succeeds exactly when ffprobe found a video stream, the video
   * command exited 0, and the file either has no audio stream or one of the
   * four audio commands was accepted.
   */
  lemma FileSuccess(task: FileTask, world: FileWorld)
    requires WorldFits(world)
    ensures var probed := ProbeVideo(world.probe);
      FileSucceeded(SingleFileResult(task, world)) <==>
        && probed.Some?
        && Media.Succeeded(world.videoRun)
        && (!probed.value.hasAudio
            || Converted(world.audioAttempts)
            || Accepted(world.rawAttempt))
  {
    match ProbeVideo(world.probe)
    case None =>
    case Some(info) =>
      ProbedFileSuccess(task, world, info);
  }

  lemma ProbedFileSuccess(task: FileTask, world: FileWorld, info: VideoInfo)
    requires WorldFits(world) && ProbeVideo(world.probe) == Some(info)
    ensures FileSucceeded(SingleFileResult(task, world)) <==>
      && Media.Succeeded(world.videoRun)
      && (!info.hasAudio
          || Converted(world.audioAttempts)
          || Accepted(world.rawAttempt))
  {
    if info.hasAudio {
      AudioSucceeds(AudioTaskFor(task, world), world.audioAttempts, world.rawAttempt);
    }
  }

  lemma AudioSucceeds(t: AudioTask, attempts: seq<Attempt>, raw: Attempt)
    requires |attempts| == 3
    ensures StreamSucceeded(AudioResult(t, attempts, raw)) <==> Converted(attempts) || Accepted(raw)
  {
    AudioFallback(t, attempts, raw);
  }

  /**
   * A probed file's audio record is "skipped" exactly when it has no audio
   * stream, and its success flag is the video's success and the audio's
   * success or skip. A file ffprobe could not read fails with "Failed to
   * probe video".
   */
  lemma FileRecords(task: FileTask, world: FileWorld)
    ensures var r, probed := SingleFileResult(task, world), ProbeVideo(world.probe);
      && (r.Separated? <==> probed.Some?)
      && (r.Separated? ==> (r.audio.Skipped? <==> !probed.value.hasAudio))
      && (r.Separated? ==> (FileSucceeded(r) <==> StreamSucceeded(r.video) && (StreamSucceeded(r.audio) || r.audio.Skipped?)))
      && (probed.None? ==> r == ProbeFailure(FileId(task.videoPath)) && !FileSucceeded(r) && ErrorText(r) == ProbeFailureMessage)
  {
    match ProbeVideo(world.probe)
    case None =>
    case Some(info) =>
      AudioRecordSkipped(task, world, info);
  }

  lemma AudioRecordSkipped(task: FileTask, world: FileWorld, info: VideoInfo)
    ensures AudioRecordFor(task, world, info).Skipped? <==> !info.hasAudio
  {
  }

  /** A worker that raised reports that exception; otherwise the file's result is what process_single_file returned. */
  function Outcome(task: FileTask, world: FileWorld): FileResult {
    if world.raised.Some? then Crashed(FileId(task.videoPath), world.raised.value) else SingleFileResult(task, world)
  }

  // ------------------------------------------------------------------ events

  /** The JSON lines run_batch prints. */
  datatype Event =
    | Start(totalFiles: nat, sampleRateMode: string, defaultSampleRate: int, parallelJobs: int,
            hardwareAcceleration: bool, ffmpegPath: string)
    | FileComplete(file: string, outputDir: string, video: StreamResult, audio: StreamResult, progress: string)
    | FileError(file: string, videoRecord: Option<StreamResult>, audioRecord: Option<StreamResult>, error: string)
    | Complete(totalFiles: nat, successful: nat, failed: int, results: seq<FileResult>)
    | Error(message: string)

  /** `f"{completed}/{total}"` */
  function ProgressLabel(completed: nat, total: nat): string {
    Decimal.Digits(completed) + "/" + Decimal.Digits(total)
  }

  /** A progress label reads back as the two counts it was made from, split at its one '/'. */
  lemma ProgressLabelReads(completed: nat, total: nat)
    ensures var text := ProgressLabel(completed, total);
      var p := |Decimal.Digits(completed)|;
      && p < |text| && text[p] == '/'
      && Decimal.AllDigits(text[..p]) && Decimal.Value(text[..p]) == completed
      && Decimal.AllDigits(text[p + 1..]) && Decimal.Value(text[p + 1..]) == total
  {
    var text := ProgressLabel(completed, total);
    var p := |Decimal.Digits(completed)|;
    Decimal.ValueOfDigits(completed);
    Decimal.ValueOfDigits(total);
    assert text[..p] == Decimal.Digits(completed);
    assert text[p + 1..] == Decimal.Digits(total);
  }

  /** What run_batch prints for the file that finished `completed`-th of `total`. */
  function ResultEvent(fileId: string, r: FileResult, completed: nat, total: nat): Event {
    if FileSucceeded(r) then FileComplete(fileId, r.outputDir, r.video, r.audio, ProgressLabel(completed, total))
    else FileError(fileId, VideoRecord(r), AudioRecord(r), ErrorText(r))
  }

  /** An ERROR line with the given message. */
  function ErrorLine(message: string): Event {
    Error(message)
  }

  function StartEvent(cfg: Config, totalFiles: nat, useVideoToolbox: bool, ffmpegPath: string): Event {
    Start(totalFiles, cfg.sampleRateMode, cfg.sampleRate, cfg.parallelJobs, useVideoToolbox, ffmpegPath)
  }

  /** The summary line: how many of the results are successes and how many are not. */
  function CompleteEvent(totalFiles: nat, results: seq<FileResult>): Event {
    var successful := Completion.Count(results, FileSucceeded);
    Complete(totalFiles, successful, |results| - successful, results)
  }

  // ------------------------------------------------------------------- batch

  /** What the pool is given for one valid path: its own sample rate, the batch's ffmpeg and encoder choice. */
  function TaskFor(cfg: Config, videoPath: string, ffmpegPath: string, useVideoToolbox: bool): FileTask {
    FileTask(videoPath, SampleRateFor(cfg, FileId(videoPath)), ffmpegPath, useVideoToolbox)
  }

  /** The tasks of the first m valid paths, in input order. */
  function TasksFor(cfg: Config, valid: seq<string>, ffmpegPath: string, useVideoToolbox: bool, m: nat): (tasks: seq<FileTask>)
    requires m <= |valid|
    ensures |tasks| == m
  {
    if m == 0 then []
    else TasksFor(cfg, valid, ffmpegPath, useVideoToolbox, m - 1) + [TaskFor(cfg, valid[m - 1], ffmpegPath, useVideoToolbox)]
  }

  lemma {:induction false} TasksForAt(cfg: Config, valid: seq<string>, ffmpegPath: string, useVideoToolbox: bool, m: nat, k: nat)
    requires k < m <= |valid|
    ensures TasksFor(cfg, valid, ffmpegPath, useVideoToolbox, m)[k] == TaskFor(cfg, valid[k], ffmpegPath, useVideoToolbox)
  {
    if k < m - 1 {
      TasksForAt(cfg, valid, ffmpegPath, useVideoToolbox, m - 1, k);
    }
  }

  /** The loop of run_batch that builds one job per valid path. */
  method BuildTasks(cfg: Config, valid: seq<string>, ffmpegPath: string, useVideoToolbox: bool) returns (tasks: seq<FileTask>)
    ensures tasks == TasksFor(cfg, valid, ffmpegPath, useVideoToolbox, |valid|)
  {
    tasks := [];
    for i := 0 to |valid|
      invariant tasks == TasksFor(cfg, valid, ffmpegPath, useVideoToolbox, i)
    {
      var filename := Paths.BaseName(valid[i]);
      var fileSampleRate;
      if cfg.sampleRateMode == "per_file" && filename in cfg.sampleRates {
        fileSampleRate := cfg.sampleRates[filename];
      } else {
        fileSampleRate := cfg.sampleRate;
      }
      tasks := tasks + [FileTask(valid[i], fileSampleRate, ffmpegPath, useVideoToolbox)];
    }
  }

  /** One world per task and a completion order that names a task at each of its positions. */
  predicate OrderFits(tasks: seq<FileTask>, worlds: seq<FileWorld>, order: seq<nat>) {
    && |worlds| == |tasks| && |order| == |tasks|
    && forall k :: 0 <= k < |order| ==> order[k] < |tasks|
  }

  /** Besides, the pool finishes every task exactly once, and each world has its three conversion attempts. */
  predicate PoolFits(tasks: seq<FileTask>, worlds: seq<FileWorld>, order: seq<nat>) {
    && OrderFits(tasks, worlds, order)
    && Completion.IsPermutation(order, |tasks|)
    && (forall i {:trigger WorldFits(worlds[i])} :: 0 <= i < |worlds| ==> WorldFits(worlds[i]))
  }

  /** The result of the file that finished k-th. */
  function CompletedResult(tasks: seq<FileTask>, worlds: seq<FileWorld>, order: seq<nat>, k: nat): FileResult
    requires OrderFits(tasks, worlds, order) && k < |order|
  {
    Outcome(tasks[order[k]], worlds[order[k]])
  }

  /** The line printed for the file that finished k-th. */
  function CompletedEvent(tasks: seq<FileTask>, worlds: seq<FileWorld>, order: seq<nat>, k: nat): Event
    requires OrderFits(tasks, worlds, order) && k < |order|
  {
    ResultEvent(FileId(tasks[order[k]].videoPath), CompletedResult(tasks, worlds, order, k), k + 1, |tasks|)
  }

  /** `results` after the first m files finished. */
  function ResultsUpTo(tasks: seq<FileTask>, worlds: seq<FileWorld>, order: seq<nat>, m: nat): (results: seq<FileResult>)
    requires OrderFits(tasks, worlds, order) && m <= |order|
    ensures |results| == m
  {
    if m == 0 then [] else ResultsUpTo(tasks, worlds, order, m - 1) + [CompletedResult(tasks, worlds, order, m - 1)]
  }

  /** The lines printed after the first m files finished: one per file. */
  function EventsUpTo(tasks: seq<FileTask>, worlds: seq<FileWorld>, order: seq<nat>, m: nat): (events: seq<Event>)
    requires OrderFits(tasks, worlds, order) && m <= |order|
    ensures |events| == m
  {
    if m == 0 then []
    else
      EventsUpTo(tasks, worlds, order, m - 1) + [CompletedEvent(tasks, worlds, order, m - 1)]
  }

  lemma {:induction false} ResultsUpToAt(tasks: seq<FileTask>, worlds: seq<FileWorld>, order: seq<nat>, m: nat, k: nat)
    requires OrderFits(tasks, worlds, order) && k < m <= |order|
    ensures ResultsUpTo(tasks, worlds, order, m)[k] == CompletedResult(tasks, worlds, order, k)
  {
    if k < m - 1 {
      ResultsUpToAt(tasks, worlds, order, m - 1, k);
    }
  }

  lemma SnocAt<T>(before: seq<T>, x: T, k: nat)
    requires k <= |before|
    ensures (before + [x])[k] == if k < |before| then before[k] else x
  {
  }

  lemma {:induction false} EventsUpToAt(tasks: seq<FileTask>, worlds: seq<FileWorld>, order: seq<nat>, m: nat, k: nat)
    requires OrderFits(tasks, worlds, order) && k < m <= |order|
    ensures EventsUpTo(tasks, worlds, order, m)[k] == CompletedEvent(tasks, worlds, order, k)
  {
    var before := EventsUpTo(tasks, worlds, order, m - 1);
    if k < m - 1 {
      EventsUpToAt(tasks, worlds, order, m - 1, k);
    }
    SnocAt(before, CompletedEvent(tasks, worlds, order, m - 1), k);
  }

  /** The body of the `as_completed` loop for the file that finished k-th: its result and the line printed for it. */
  method FinishFile(tasks: seq<FileTask>, worlds: seq<FileWorld>, order: seq<nat>, k: nat, completed: nat)
    returns (result: FileResult, event: Event)
    requires PoolFits(tasks, worlds, order) && k < |order| && completed == k + 1
    ensures result == CompletedResult(tasks, worlds, order, k)
    ensures event == CompletedEvent(tasks, worlds, order, k)
  {
    var i := order[k];
    var fileId := Paths.BaseName(tasks[i].videoPath);
    if worlds[i].raised.Some? {
      result := Crashed(fileId, worlds[i].raised.value);
      event := FileError(fileId, None, None, worlds[i].raised.value);
    } else {
      var commands;
      result, commands := ProcessSingleFile(tasks[i], worlds[i]);
      event := ResultEvent(fileId, result, completed, |tasks|);
    }
  }

  /** The `as_completed` loop of run_batch: count each result, keep it, and print FILE_COMPLETE or FILE_ERROR for it. */
  method CollectResults(tasks: seq<FileTask>, worlds: seq<FileWorld>, order: seq<nat>)
    returns (completed: nat, events: seq<Event>, results: seq<FileResult>)
    requires PoolFits(tasks, worlds, order)
    ensures completed == |tasks|
    ensures results == ResultsUpTo(tasks, worlds, order, |tasks|)
    ensures events == EventsUpTo(tasks, worlds, order, |tasks|)
  {
    completed, events, results := 0, [], [];
    for k := 0 to |tasks|
      invariant completed == k
      invariant results == ResultsUpTo(tasks, worlds, order, k)
      invariant events == EventsUpTo(tasks, worlds, order, k)
    {
      completed := completed + 1;
      var result, event := FinishFile(tasks, worlds, order, k, completed);
      results := results + [result];
      events := events + [event];
    }
  }

  /** The tasks of a batch: one per path that is a file, in input order. */
  function BatchTasks(files: seq<string>, isFile: seq<bool>, settings: Settings, ffmpegPath: string, useVideoToolbox: bool)
    : (tasks: seq<FileTask>)
    requires |isFile| == |files|
    ensures |tasks| == |Batch.ValidFiles(files, isFile)|
  {
    var valid := Batch.ValidFiles(files, isFile);
    TasksFor(ConfigOf(settings), valid, ffmpegPath, useVideoToolbox, |valid|)
  }

  /** The results run_batch collects, in completion order. */
  function BatchResults(tasks: seq<FileTask>, worlds: seq<FileWorld>, order: seq<nat>): (results: seq<FileResult>)
    requires OrderFits(tasks, worlds, order)
    ensures |results| == |tasks|
  {
    ResultsUpTo(tasks, worlds, order, |tasks|)
  }

  /** What run_batch prints once it has files to work on: START, one line per file as it finishes, COMPLETE. */
  function FramedEvents(cfg: Config, tasks: seq<FileTask>, worlds: seq<FileWorld>, order: seq<nat>,
                        useVideoToolbox: bool, ffmpegPath: string): seq<Event>
    requires OrderFits(tasks, worlds, order)
  {
    [StartEvent(cfg, |tasks|, useVideoToolbox, ffmpegPath)] + EventsUpTo(tasks, worlds, order, |tasks|)
    + [CompleteEvent(|tasks|, BatchResults(tasks, worlds, order))]
  }

  /** run_batch from START on: run the pool, print a line per finished file, then the summary. */
  method ProcessTasks(cfg: Config, tasks: seq<FileTask>, worlds: seq<FileWorld>, order: seq<nat>,
                      useVideoToolbox: bool, ffmpegPath: string)
    returns (events: seq<Event>, results: seq<FileResult>)
    requires PoolFits(tasks, worlds, order)
    ensures events == FramedEvents(cfg, tasks, worlds, order, useVideoToolbox, ffmpegPath)
    ensures results == BatchResults(tasks, worlds, order)
  {
    var completed, body;
    completed, body, results := CollectResults(tasks, worlds, order);
    events := [StartEvent(cfg, |tasks|, useVideoToolbox, ffmpegPath)] + body + [CompleteEvent(|tasks|, results)];
  }

  /** Everything run_batch prints. */
  function RunEvents(files: seq<string>, isFile: seq<bool>, settings: Settings, ffmpegPath: string,
                     useVideoToolbox: bool, worlds: seq<FileWorld>, order: seq<nat>): seq<Event>
    requires |isFile| == |files|
    requires OrderFits(BatchTasks(files, isFile, settings, ffmpegPath, useVideoToolbox), worlds, order)
  {
    var tasks := BatchTasks(files, isFile, settings, ffmpegPath, useVideoToolbox);
    var prefix := Batch.NotFoundLines(Batch.MissingFiles(files, isFile), ErrorLine);
    prefix + (if tasks == [] then [Error(Batch.NoValidFilesMessage)]
              else FramedEvents(ConfigOf(settings), tasks, worlds, order, useVideoToolbox, ffmpegPath))
  }

  /**
   * `run_batch`. Every path that is not a file gets an ERROR line. If none is
   * left, "No valid files to process" ends the run. Otherwise START, one line
   * per file in the order the pool finishes them, then COMPLETE. The pool
   * needs at least one worker.
   */
  method RunBatch(files: seq<string>, isFile: seq<bool>, settings: Settings, ffmpegPath: string,
                  useVideoToolbox: bool, worlds: seq<FileWorld>, order: seq<nat>)
    returns (events: seq<Event>, results: seq<FileResult>)
    requires |isFile| == |files|
    requires PoolFits(BatchTasks(files, isFile, settings, ffmpegPath, useVideoToolbox), worlds, order)
    requires Batch.ValidFiles(files, isFile) != [] ==> ConfigOf(settings).parallelJobs >= 1
    ensures events == RunEvents(files, isFile, settings, ffmpegPath, useVideoToolbox, worlds, order)
    ensures results == BatchResults(BatchTasks(files, isFile, settings, ffmpegPath, useVideoToolbox), worlds, order)
  {
    var cfg := ConfigOf(settings);
    var valid, missing := Batch.ValidateFiles(files, isFile);
    events := Batch.NotFoundLines(missing, ErrorLine);
    if |valid| == 0 {
      events := events + [Error(Batch.NoValidFilesMessage)];
      results := [];
      return;
    }
    var tasks := BuildTasks(cfg, valid, ffmpegPath, useVideoToolbox);
    var framed;
    framed, results := ProcessTasks(cfg, tasks, worlds, order, useVideoToolbox, ffmpegPath);
    events := events + framed;
  }

  // ------------------------------------------------------ properties of a run

  /** The result of every task, in input order. */
  function InputOrderResults(tasks: seq<FileTask>, worlds: seq<FileWorld>): (results: seq<FileResult>)
    requires |worlds| == |tasks|
    ensures |results| == |tasks|
  {
    seq(|tasks|, i requires 0 <= i < |tasks| => Outcome(tasks[i], worlds[i]))
  }

  /** The collected results are the input-order results in completion order: each file contributes exactly one. */
  lemma ResultsInCompletionOrder(tasks: seq<FileTask>, worlds: seq<FileWorld>, order: seq<nat>)
    requires OrderFits(tasks, worlds, order) && Completion.IsPermutation(order, |tasks|)
    ensures BatchResults(tasks, worlds, order) == Completion.Reorder(InputOrderResults(tasks, worlds), order)
  {
    var results, reordered := BatchResults(tasks, worlds, order), Completion.Reorder(InputOrderResults(tasks, worlds), order);
    forall k | 0 <= k < |tasks|
      ensures results[k] == reordered[k]
    {
      ResultsUpToAt(tasks, worlds, order, |tasks|, k);
    }
  }

  /**
   * COMPLETE reports as many successes as there are successful files,
   * whatever order they finished in, and successful + failed = total_files.
   */
  lemma CompleteCounts(tasks: seq<FileTask>, worlds: seq<FileWorld>, order: seq<nat>)
    requires OrderFits(tasks, worlds, order) && Completion.IsPermutation(order, |tasks|)
    ensures var e := CompleteEvent(|tasks|, BatchResults(tasks, worlds, order));
      && e.successful == Completion.Count(InputOrderResults(tasks, worlds), FileSucceeded)
      && e.successful + e.failed == e.totalFiles == |tasks|
  {
    ResultsInCompletionOrder(tasks, worlds, order);
    Completion.CountReorder(InputOrderResults(tasks, worlds), order, FileSucceeded);
  }

  /**
   * One line per finished file, in completion order: FILE_COMPLETE with
   * progress "k/n" for the k-th file to finish when it succeeded, FILE_ERROR
   * with its error text otherwise.
   */
  lemma ProgressCounter(tasks: seq<FileTask>, worlds: seq<FileWorld>, order: seq<nat>)
    requires OrderFits(tasks, worlds, order)
    ensures var events, results := EventsUpTo(tasks, worlds, order, |tasks|), BatchResults(tasks, worlds, order);
      && |events| == |results| == |tasks|
      && forall k :: 0 <= k < |tasks| ==>
           && (events[k].FileComplete? || events[k].FileError?)
           && events[k].file == FileId(tasks[order[k]].videoPath)
           && (events[k].FileComplete? <==> FileSucceeded(results[k]))
           && (events[k].FileComplete? ==> events[k].progress == ProgressLabel(k + 1, |tasks|))
           && (events[k].FileError? ==> events[k].error == ErrorText(results[k]))
  {
    var events, results := EventsUpTo(tasks, worlds, order, |tasks|), BatchResults(tasks, worlds, order);
    forall k | 0 <= k < |tasks|
      ensures events[k] == ResultEvent(FileId(tasks[order[k]].videoPath), results[k], k + 1, |tasks|)
    {
      EventsUpToAt(tasks, worlds, order, |tasks|, k);
      ResultsUpToAt(tasks, worlds, order, |tasks|, k);
    }
  }

  /** No START and no COMPLETE line. */
  predicate Unframed(events: seq<Event>) {
    forall k :: 0 <= k < |events| ==> !events[k].Start? && !events[k].Complete?
  }

  lemma {:induction false} EventsUnframed(tasks: seq<FileTask>, worlds: seq<FileWorld>, order: seq<nat>, m: nat)
    requires OrderFits(tasks, worlds, order) && m <= |order|
    ensures Unframed(EventsUpTo(tasks, worlds, order, m))
  {
    if m > 0 {
      EventsUnframed(tasks, worlds, order, m - 1);
      UnframedAppend(EventsUpTo(tasks, worlds, order, m - 1), [CompletedEvent(tasks, worlds, order, m - 1)]);
    }
  }

  lemma UnframedAppend(a: seq<Event>, b: seq<Event>)
    requires Unframed(a) && Unframed(b)
    ensures Unframed(a + b)
  {
    forall k | 0 <= k < |a + b|
      ensures !(a + b)[k].Start? && !(a + b)[k].Complete?
    {
      if k < |a| {
        assert (a + b)[k] == a[k];
      } else {
        assert (a + b)[k] == b[k - |a|];
      }
    }
  }

  lemma PrefixKept(prefix: seq<Event>, tail: seq<Event>)
    ensures forall k :: 0 <= k < |prefix| ==> (prefix + tail)[k] == prefix[k]
    ensures (prefix + tail)[|prefix|..] == tail
  {
  }

  /** START exactly at the head of `events` and COMPLETE exactly at its end. */
  predicate FramedAt(events: seq<Event>, head: nat) {
    forall k :: 0 <= k < |events| ==> (events[k].Start? <==> k == head) && (events[k].Complete? <==> k == |events| - 1)
  }

  /** The framed part of a run: START first, COMPLETE last, and one line per task between them. */
  lemma FramedShape(cfg: Config, tasks: seq<FileTask>, worlds: seq<FileWorld>, order: seq<nat>,
                    useVideoToolbox: bool, ffmpegPath: string)
    requires OrderFits(tasks, worlds, order)
    ensures var framed := FramedEvents(cfg, tasks, worlds, order, useVideoToolbox, ffmpegPath);
      && |framed| == |tasks| + 2
      && framed[0] == StartEvent(cfg, |tasks|, useVideoToolbox, ffmpegPath)
      && FramedAt(framed, 0)
  {
    var start := StartEvent(cfg, |tasks|, useVideoToolbox, ffmpegPath);
    var body := EventsUpTo(tasks, worlds, order, |tasks|);
    var complete := CompleteEvent(|tasks|, BatchResults(tasks, worlds, order));
    EventsUnframed(tasks, worlds, order, |tasks|);
    Frame(start, body, complete);
  }

  lemma Frame(start: Event, body: seq<Event>, complete: Event)
    requires start.Start? && complete.Complete? && Unframed(body)
    ensures FramedAt([start] + body + [complete], 0)
  {
    var framed := [start] + body + [complete];
    forall k | 0 <= k < |framed|
      ensures (framed[k].Start? <==> k == 0) && (framed[k].Complete? <==> k == |framed| - 1)
    {
      if 0 < k < |framed| - 1 {
        assert framed[k] == body[k - 1];
      }
    }
  }

  /** Unframed lines in front of a framed part move its START back by their number and leave COMPLETE last. */
  lemma FramedAfter(prefix: seq<Event>, framed: seq<Event>)
    requires Unframed(prefix) && FramedAt(framed, 0) && |framed| > 0
    ensures (prefix + framed)[|prefix|] == framed[0]
    ensures FramedAt(prefix + framed, |prefix|)
  {
    var events := prefix + framed;
    forall k | 0 <= k < |events|
      ensures (events[k].Start? <==> k == |prefix|) && (events[k].Complete? <==> k == |events| - 1)
    {
      if k < |prefix| {
        assert events[k] == prefix[k];
      } else {
        assert events[k] == framed[k - |prefix|];
      }
    }
  }

  /** The paths that are not files are reported first, one ERROR line each, in input order. */
  lemma MissingReportedFirst(files: seq<string>, isFile: seq<bool>, settings: Settings, ffmpegPath: string,
                             useVideoToolbox: bool, worlds: seq<FileWorld>, order: seq<nat>)
    requires |isFile| == |files|
    requires OrderFits(BatchTasks(files, isFile, settings, ffmpegPath, useVideoToolbox), worlds, order)
    ensures var events := RunEvents(files, isFile, settings, ffmpegPath, useVideoToolbox, worlds, order);
      var missing := Batch.MissingFiles(files, isFile);
      && |missing| < |events|
      && forall k :: 0 <= k < |missing| ==> events[k] == Error(Batch.NotFoundMessage(missing[k]))
  {
    var tasks := BatchTasks(files, isFile, settings, ffmpegPath, useVideoToolbox);
    var prefix := Batch.NotFoundLines(Batch.MissingFiles(files, isFile), ErrorLine);
    var tail := if tasks == [] then [Error(Batch.NoValidFilesMessage)]
                else FramedEvents(ConfigOf(settings), tasks, worlds, order, useVideoToolbox, ffmpegPath);
    assert RunEvents(files, isFile, settings, ffmpegPath, useVideoToolbox, worlds, order) == prefix + tail;
    assert |tail| > 0;
    PrefixKept(prefix, tail);
  }

  /** With no valid file the run ends with "No valid files to process" and prints neither START nor COMPLETE. */
  lemma NoValidFilesRun(files: seq<string>, isFile: seq<bool>, settings: Settings, ffmpegPath: string,
                        useVideoToolbox: bool, worlds: seq<FileWorld>, order: seq<nat>)
    requires |isFile| == |files|
    requires OrderFits(BatchTasks(files, isFile, settings, ffmpegPath, useVideoToolbox), worlds, order)
    requires Batch.ValidFiles(files, isFile) == []
    ensures var events := RunEvents(files, isFile, settings, ffmpegPath, useVideoToolbox, worlds, order);
      events == Batch.NotFoundLines(Batch.MissingFiles(files, isFile), ErrorLine) + [Error(Batch.NoValidFilesMessage)]
      && Unframed(events)
  {
    var prefix := Batch.NotFoundLines(Batch.MissingFiles(files, isFile), ErrorLine);
    assert Unframed(prefix);
    UnframedAppend(prefix, [Error(Batch.NoValidFilesMessage)]);
  }

  /**
   * With valid files, START (with their number) follows the missing-file
   * errors, COMPLETE comes last, and neither appears anywhere else; between
   * them there is one line per valid file.
   */
  lemma RunFrame(files: seq<string>, isFile: seq<bool>, settings: Settings, ffmpegPath: string,
                 useVideoToolbox: bool, worlds: seq<FileWorld>, order: seq<nat>)
    requires |isFile| == |files|
    requires OrderFits(BatchTasks(files, isFile, settings, ffmpegPath, useVideoToolbox), worlds, order)
    requires Batch.ValidFiles(files, isFile) != []
    ensures var events := RunEvents(files, isFile, settings, ffmpegPath, useVideoToolbox, worlds, order);
      var missing, valid := Batch.MissingFiles(files, isFile), Batch.ValidFiles(files, isFile);
      && |events| == |missing| + |valid| + 2
      && FramedAt(events, |missing|)
      && events[|missing|] == StartEvent(ConfigOf(settings), |valid|, useVideoToolbox, ffmpegPath)
  {
    var tasks := BatchTasks(files, isFile, settings, ffmpegPath, useVideoToolbox);
    var prefix := Batch.NotFoundLines(Batch.MissingFiles(files, isFile), ErrorLine);
    assert Unframed(prefix);
    FramedShape(ConfigOf(settings), tasks, worlds, order, useVideoToolbox, ffmpegPath);
    FramedAfter(prefix, FramedEvents(ConfigOf(settings), tasks, worlds, order, useVideoToolbox, ffmpegPath));
  }

  /** Every valid file is processed at the sample rate chosen for its own name, with the batch's ffmpeg and encoder choice. */
  lemma TasksUseSampleRate(files: seq<string>, isFile: seq<bool>, settings: Settings, ffmpegPath: string,
                           useVideoToolbox: bool, k: nat)
    requires |isFile| == |files|
    requires k < |Batch.ValidFiles(files, isFile)|
    ensures var path := Batch.ValidFiles(files, isFile)[k];
      BatchTasks(files, isFile, settings, ffmpegPath, useVideoToolbox)[k]
        == FileTask(path, SampleRateFor(ConfigOf(settings), Paths.BaseName(path)), ffmpegPath, useVideoToolbox)
  {
    var valid := Batch.ValidFiles(files, isFile);
    TasksForAt(ConfigOf(settings), valid, ffmpegPath, useVideoToolbox, |valid|, k);
  }
}
