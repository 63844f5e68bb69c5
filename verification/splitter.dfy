/**
 * The planning and accounting layer of the video splitter batch worker
 * (video_splitter_batch.py): how each file is cut into segments, how the
 * segment outcomes are tallied, and the order of the events it reports.
 * ffmpeg, ffprobe and the file system are inputs (see module Media).
 */
module Splitter {
  import opened Wrappers
  import Decimal
  import Paths
  import Completion
  import Media
  import Batch

  // ---------------------------------------------------------------- settings

  /** The "config" object of the job as read from JSON; an absent key is None. */
  datatype Settings = Settings(
    splitMethod: Option<string>, splitValue: Option<real>, fpsMode: Option<string>,
    fpsValue: Option<real>, fpsValues: Option<map<string, real>>, parallelJobs: Option<int>)

  /** The settings with every default filled in. */
  datatype Config = Config(
    splitMethod: string, splitValue: real, fpsMode: string, fpsValue: real,
    fpsValues: map<string, real>, parallelJobs: int)

  const DefaultSplitMethod := "duration"
  const DefaultSplitValue := 60.0
  const DefaultFpsMode := "single"
  const DefaultFps := 30.0
  const DefaultParallelJobs := 4

  /** `settings.get(key, default)` for each key: a present key is taken as given, an absent one gets its default. */
  function ConfigOf(s: Settings): (c: Config)
    ensures s.splitMethod.Some? ==> c.splitMethod == s.splitMethod.value
    ensures s.splitMethod.None? ==> c.splitMethod == "duration"
    ensures s.splitValue.Some? ==> c.splitValue == s.splitValue.value
    ensures s.splitValue.None? ==> c.splitValue == 60.0
    ensures s.fpsMode.Some? ==> c.fpsMode == s.fpsMode.value
    ensures s.fpsMode.None? ==> c.fpsMode == "single"
    ensures s.fpsValue.Some? ==> c.fpsValue == s.fpsValue.value
    ensures s.fpsValue.None? ==> c.fpsValue == 30.0
    ensures s.fpsValues.Some? ==> c.fpsValues == s.fpsValues.value
    ensures s.fpsValues.None? ==> c.fpsValues == map[]
    ensures s.parallelJobs.Some? ==> c.parallelJobs == s.parallelJobs.value
    ensures s.parallelJobs.None? ==> c.parallelJobs == 4
  {
    Config(
      s.splitMethod.GetOr(DefaultSplitMethod), s.splitValue.GetOr(DefaultSplitValue),
      s.fpsMode.GetOr(DefaultFpsMode), s.fpsValue.GetOr(DefaultFps),
      s.fpsValues.GetOr(map[]), s.parallelJobs.GetOr(DefaultParallelJobs))
  }

  /** The frame rate a file is re-encoded at: its own entry in per-file mode, else the single value. */
  function TargetFps(cfg: Config, filename: string): (fps: real)
    ensures cfg.fpsMode == "per_file" && filename in cfg.fpsValues ==> fps == cfg.fpsValues[filename]
    ensures !(cfg.fpsMode == "per_file" && filename in cfg.fpsValues) ==> fps == cfg.fpsValue
  {
    if cfg.fpsMode == "per_file" && filename in cfg.fpsValues then cfg.fpsValues[filename] else cfg.fpsValue
  }

  // ------------------------------------------------------------- segment plan

  /** Python's math.ceil on an exact real. */
  function Ceil(x: real): (c: int)
    ensures x <= c as real < x + 1.0
  {
    -((-x).Floor)
  }

  /** Python's int() on a float: truncation toward zero. */
  function Trunc(x: real): (t: int)
    ensures x >= 0.0 ==> 0 <= t && t as real <= x < t as real + 1.0
    ensures x < 0.0 ==> t <= 0 && t as real - 1.0 < x <= t as real
  {
    if x >= 0.0 then x.Floor else -((-x).Floor)
  }

  predicate ByDuration(splitMethod: string) {
    splitMethod == "duration"
  }

  /** How many segments a file is cut into and how long each is asked to be, in seconds. */
  datatype Plan = Plan(count: int, length: real)

  /**
   * The segment arithmetic of process_video_file. None where the source
   * raises: a division by zero (split value 0 by duration, fewer than one
   * segment by count) or a process pool of no workers (no segments at all).
   */
  function PlanFor(splitMethod: string, splitValue: real, duration: real): (p: Option<Plan>)
    ensures p.Some? ==> p.value.count >= 1
    ensures ByDuration(splitMethod) && splitValue == 0.0 ==> p.None?
    ensures !ByDuration(splitMethod) ==> (p.Some? <==> Trunc(splitValue) >= 1)
  {
    if ByDuration(splitMethod) then
      if splitValue == 0.0 then None
      else
        var n := Ceil(duration / splitValue);
        if n >= 1 then Some(Plan(n, splitValue)) else None
    else
      var n := Trunc(splitValue);
      if n >= 1 then Some(Plan(n, duration / n as real)) else None
  }

  /** Multiplying both sides of an inequality by a positive factor keeps it. */
  lemma MultiplyPositive(a: real, b: real, c: real)
    requires c > 0.0
    ensures a >= b ==> a * c >= b * c
    ensures a > b ==> a * c > b * c
  {
  }

  /**
   * By duration with positive values, the count is the least number of
   * segments of the given length that reach the end of the file: n of them
   * reach it and n - 1 do not.
   */
  lemma DurationPlanReachesEnd(splitValue: real, duration: real)
    requires splitValue > 0.0 && duration > 0.0
    ensures var p := PlanFor("duration", splitValue, duration);
      && p.Some? && p.value.length == splitValue
      && p.value.count as real * splitValue >= duration
      && (p.value.count - 1) as real * splitValue < duration
  {
    var q := duration / splitValue;
    assert q > 0.0;
    var n := Ceil(q);
    assert q * splitValue == duration;
    MultiplyPositive(n as real, q, splitValue);
    MultiplyPositive(q, (n - 1) as real, splitValue);
  }

  /** By duration, a file of no length (or a negative one) gets no segments, and process_video_file raises. */
  lemma DurationPlanNeedsLength(splitValue: real, duration: real)
    requires splitValue > 0.0 && duration <= 0.0
    ensures PlanFor("duration", splitValue, duration).None?
  {
    var q := duration / splitValue;
    assert q * splitValue == duration;
    MultiplyPositive(0.0, q, splitValue);
  }

  /** By count, there are int(split_value) segments of equal length, which together last exactly the file's duration. */
  lemma CountPlanTilesDuration(splitMethod: string, splitValue: real, duration: real)
    requires !ByDuration(splitMethod) && Trunc(splitValue) >= 1
    ensures var p := PlanFor(splitMethod, splitValue, duration);
      && p.Some? && p.value.count == Trunc(splitValue)
      && p.value.count as real * p.value.length == duration
  {
  }

  /** The segment [i * length, (i + 1) * length) of a plan. */
  predicate InSegment(plan: Plan, i: int, t: real) {
    i as real * plan.length <= t < (i + 1) as real * plan.length
  }

  /**
   * With positive segments, every instant of the file lies in some segment of
   * the plan, and the plan's segments start before the file ends.
   */
  lemma PlanCoversFile(splitMethod: string, splitValue: real, duration: real, t: real)
    requires PlanFor(splitMethod, splitValue, duration).Some?
    requires PlanFor(splitMethod, splitValue, duration).value.length > 0.0
    requires 0.0 <= t < duration
    ensures var plan := PlanFor(splitMethod, splitValue, duration).value;
      exists i :: 0 <= i < plan.count && InSegment(plan, i, t)
  {
    var plan := PlanFor(splitMethod, splitValue, duration).value;
    var len := plan.length;
    if ByDuration(splitMethod) {
      DurationPlanReachesEnd(splitValue, duration);
    } else {
      CountPlanTilesDuration(splitMethod, splitValue, duration);
    }
    assert t < plan.count as real * len;
    FloorSegment(plan, t);
  }

  lemma FloorBounds(q: real)
    requires q >= 0.0
    ensures 0 <= q.Floor && q.Floor as real <= q < (q.Floor + 1) as real
  {
  }

  /** Scaling by a positive length keeps q between lo and hi. */
  lemma ScaleBetween(len: real, t: real, q: real, lo: real, hi: real)
    requires len > 0.0 && q * len == t && lo <= q < hi
    ensures lo * len <= t < hi * len
  {
    MultiplyPositive(q, lo, len);
    MultiplyPositive(hi, q, len);
  }

  lemma ScaleBelow(len: real, lo: real, n: real)
    requires len > 0.0 && lo * len < n * len
    ensures lo < n
  {
    MultiplyPositive(lo, n, len);
  }

  /** For `q * len == t` with t inside the plan, the floor of q numbers a segment holding t. */
  lemma FloorSegmentBounds(len: real, count: nat, t: real, q: real)
    requires len > 0.0 && 0.0 <= t < count as real * len && q * len == t
    ensures 0 <= q.Floor < count
    ensures q.Floor as real * len <= t < (q.Floor + 1) as real * len
  {
    MultiplyPositive(0.0, q, len);
    FloorBounds(q);
    ScaleBetween(len, t, q, q.Floor as real, (q.Floor + 1) as real);
    ScaleBelow(len, q.Floor as real, count as real);
  }

  /** The segment holding t is the one numbered by the floor of t / length. */
  lemma FloorSegment(plan: Plan, t: real)
    requires plan.length > 0.0 && 0.0 <= t < plan.count as real * plan.length
    ensures 0 <= (t / plan.length).Floor < plan.count && InSegment(plan, (t / plan.length).Floor, t)
    ensures exists i :: 0 <= i < plan.count && InSegment(plan, i, t)
  {
    var q := t / plan.length;
    assert q * plan.length == t;
    FloorSegmentBounds(plan.length, plan.count, t, q);
    assert InSegment(plan, q.Floor, t);
  }

  /** `min(parallel_jobs, len(segment_tasks))`: the size of the pool that encodes one file's segments. */
  function PoolSize(parallelJobs: int, segments: int): (workers: int)
    requires parallelJobs >= 1 && segments >= 1
    ensures 1 <= workers <= segments && workers <= parallelJobs
    ensures workers == segments || workers == parallelJobs
  {
    if parallelJobs < segments then parallelJobs else segments
  }

  // ------------------------------------------------------------------ probing

  /** What process_video_file uses of ffprobe's report. */
  datatype VideoInfo = VideoInfo(
    frameRate: real, bitRate: int, width: int, height: int, duration: real, codec: string)

  /** `probe_video`: the metadata, or None because there is no video stream, or None after an exception. */
  datatype Probe = Probed(info: VideoInfo) | NoVideoStream | ProbeFailed(message: string)

  /**
   * `probe_video` on what ffprobe reported; a missing container duration raises KeyError('duration').
   * A report with no "format" object at all raises KeyError('format') instead: that case is folded
   * into the missing-duration one, so its message is also "'duration'".
   */
  function ProbeVideo(run: Media.ProbeRun): (p: Probe)
    ensures p.NoVideoStream? <==> run.ProbeOutput? && run.video.None?
    ensures p.ProbeFailed? <==> run.ProbeRaised? || (run.ProbeOutput? && run.video.Some? && run.formatDuration.None?)
    ensures p.Probed? ==> && p.info.bitRate == Media.BitRate(run.video.value.bitRate, run.formatBitRate)
                          && p.info.duration == run.formatDuration.value
                          && p.info.frameRate == run.video.value.frameRate
  {
    match run
    case ProbeRaised(message) => ProbeFailed(message)
    case ProbeOutput(video, _, formatBitRate, formatDuration) =>
      if video.None? then NoVideoStream
      else if formatDuration.None? then ProbeFailed("'duration'")
      else
        var v := video.value;
        Probed(VideoInfo(v.frameRate, Media.BitRate(v.bitRate, formatBitRate), v.width, v.height,
                         formatDuration.value, v.codecName.GetOr("unknown")))
  }

  // -------------------------------------------------------------- file jobs

  /** The arguments run_batch passes to process_video_file for one file. */
  datatype FileJob = FileJob(
    videoPath: string, splitMethod: string, splitValue: real, targetFps: real,
    parallelJobs: int, ffmpegPath: string, useVideoToolbox: bool)

  /**
   * What the outside world answers while one file is processed: the directory
   * of its absolute path, ffprobe's report, the order in which the pool
   * finishes its segments, and the outcome of each segment's ffmpeg run.
   */
  datatype FileWorld = FileWorld(
    inputDir: string, probe: Media.ProbeRun, completionOrder: seq<nat>, runs: seq<Media.RunOutcome>)

  /** One element of `segment_tasks`: the arguments of split_single_segment. */
  datatype SegmentTask = SegmentTask(
    videoPath: string, outputFile: string, startTime: real, duration: real, targetFps: real,
    bitRate: int, width: int, height: int, encoder: string, ffmpegPath: string,
    segmentNum: int, totalSegments: int, fileId: string)

  function FileId(videoPath: string): string {
    Paths.BaseName(videoPath)
  }

  /** `{input_dir}/{stem}_parts` */
  function OutputDir(inputDir: string, videoPath: string): string {
    Paths.Join(inputDir, Paths.Stem(FileId(videoPath)) + "_parts")
  }

  /** `{stem}_part{number:03d}{extension}` */
  function PartName(stem: string, extension: string, number: nat): string {
    stem + "_part" + Decimal.ZeroPad(number, 3) + extension
  }

  /** The file segment i (numbered i + 1) is written to, inside the file's `_parts` directory. */
  function PartFile(inputDir: string, videoPath: string, i: nat): string {
    var name := FileId(videoPath);
    Paths.Join(OutputDir(inputDir, videoPath), PartName(Paths.Stem(name), Paths.Suffix(name), i + 1))
  }

  /** The plan of one file, from its job's split settings and its probed duration. */
  function FilePlan(job: FileJob, info: VideoInfo): Option<Plan> {
    PlanFor(job.splitMethod, job.splitValue, info.duration)
  }

  /** `i * segment_duration`, written as i lengths laid end to end. */
  function StartTime(i: nat, length: real): real {
    if i == 0 then 0.0 else StartTime(i - 1, length) + length
  }

  /** The start time is the product the source computes. */
  lemma {:induction false} StartTimeIsProduct(i: nat, length: real)
    ensures StartTime(i, length) == i as real * length
  {
    if i > 0 {
      StartTimeIsProduct(i - 1, length);
      NextStart(i - 1, length);
    }
  }

  lemma NextStart(i: int, length: real)
    ensures (i + 1) as real * length == i as real * length + length
  {
  }

  /** Segment i of the plan: it starts at i lengths, is numbered i + 1 of n, and writes its own part file. */
  function PlannedTask(job: FileJob, inputDir: string, info: VideoInfo, plan: Plan, i: nat): SegmentTask {
    SegmentTask(
      job.videoPath, PartFile(inputDir, job.videoPath, i), StartTime(i, plan.length), plan.length,
      job.targetFps, info.bitRate, info.width, info.height, Media.Encoder(job.useVideoToolbox),
      job.ffmpegPath, i + 1, plan.count, FileId(job.videoPath))
  }

  /** The first n segments of the plan, in order. */
  function TaskList(job: FileJob, inputDir: string, info: VideoInfo, plan: Plan, n: nat): (tasks: seq<SegmentTask>)
    ensures |tasks| == n
  {
    if n == 0 then [] else TaskList(job, inputDir, info, plan, n - 1) + [PlannedTask(job, inputDir, info, plan, n - 1)]
  }

  /** Entry i of the list is segment i of the plan. */
  lemma {:induction false} TaskListAt(job: FileJob, inputDir: string, info: VideoInfo, plan: Plan, n: nat, i: nat)
    requires i < n
    ensures TaskList(job, inputDir, info, plan, n)[i] == PlannedTask(job, inputDir, info, plan, i)
  {
    if i < n - 1 {
      TaskListAt(job, inputDir, info, plan, n - 1, i);
    }
  }

  /** All segments of the plan. */
  function PlannedTasks(job: FileJob, inputDir: string, info: VideoInfo, plan: Plan): (tasks: seq<SegmentTask>)
    requires plan.count >= 1
    ensures |tasks| == plan.count
  {
    TaskList(job, inputDir, info, plan, plan.count)
  }

  /** The segment loop of process_video_file, given the segment count and length it computed. */
  method BuildSegmentTasks(job: FileJob, inputDir: string, info: VideoInfo, plan: Plan) returns (tasks: seq<SegmentTask>)
    requires plan.count >= 1
    ensures tasks == PlannedTasks(job, inputDir, info, plan)
  {
    var fileId := Paths.BaseName(job.videoPath);
    var inputName := Paths.Stem(fileId);
    var extension := Paths.Suffix(fileId);
    var outputDir := Paths.Join(inputDir, inputName + "_parts");
    var encoder := Media.Encoder(job.useVideoToolbox);
    tasks := [];
    for i := 0 to plan.count
      invariant tasks == TaskList(job, inputDir, info, plan, i)
    {
      var startTime := StartTime(i, plan.length);
      var outputFile := Paths.Join(outputDir, PartName(inputName, extension, i + 1));
      tasks := tasks + [SegmentTask(
        job.videoPath, outputFile, startTime, plan.length, job.targetFps, info.bitRate,
        info.width, info.height, encoder, job.ffmpegPath, i + 1, plan.count, fileId)];
    }
  }

  /** The plan numbers its segments 1..n, and each carries the total n and the plan's length. */
  lemma PlanNumbering(job: FileJob, inputDir: string, info: VideoInfo, plan: Plan)
    requires plan.count >= 1
    ensures var tasks := PlannedTasks(job, inputDir, info, plan);
      forall i :: 0 <= i < |tasks| ==>
        tasks[i].segmentNum == i + 1 && tasks[i].totalSegments == |tasks| && tasks[i].duration == plan.length
  {
    var tasks := PlannedTasks(job, inputDir, info, plan);
    forall i | 0 <= i < |tasks|
      ensures tasks[i].segmentNum == i + 1 && tasks[i].totalSegments == |tasks| && tasks[i].duration == plan.length
    {
      TaskListAt(job, inputDir, info, plan, plan.count, i);
    }
  }

  /** The first segment starts at 0 and each next one starts where the previous one ends. */
  lemma PlanContiguous(job: FileJob, inputDir: string, info: VideoInfo, plan: Plan)
    requires plan.count >= 1
    ensures var tasks := PlannedTasks(job, inputDir, info, plan);
      && tasks[0].startTime == 0.0
      && (forall i :: 0 <= i < |tasks| - 1 ==> tasks[i + 1].startTime == tasks[i].startTime + tasks[i].duration)
  {
    var tasks := PlannedTasks(job, inputDir, info, plan);
    TaskListAt(job, inputDir, info, plan, plan.count, 0);
    forall i | 0 <= i < |tasks| - 1
      ensures tasks[i + 1].startTime == tasks[i].startTime + tasks[i].duration
    {
      NextSegmentStart(job, inputDir, info, plan, i);
    }
  }

  lemma NextSegmentStart(job: FileJob, inputDir: string, info: VideoInfo, plan: Plan, i: nat)
    requires i + 1 < plan.count
    ensures var tasks := PlannedTasks(job, inputDir, info, plan);
      tasks[i + 1].startTime == tasks[i].startTime + tasks[i].duration
  {
    TaskListAt(job, inputDir, info, plan, plan.count, i);
    TaskListAt(job, inputDir, info, plan, plan.count, i + 1);
  }

  /** Two segments of one file get different part names. */
  lemma PartNamesDistinct(stem: string, extension: string, m: nat, n: nat)
    requires m != n
    ensures PartName(stem, extension, m) != PartName(stem, extension, n)
  {
    var head := stem + "_part";
    if PartName(stem, extension, m) == PartName(stem, extension, n) {
      Paths.MiddleInjective(head, Decimal.ZeroPad(m, 3), Decimal.ZeroPad(n, 3), extension);
      Decimal.ZeroPadInjective(m, n, 3);
    }
  }

  /** Two segments of one file never write the same output file. */
  lemma PartFilesDistinct(inputDir: string, videoPath: string, i: nat, j: nat)
    requires i != j
    ensures PartFile(inputDir, videoPath, i) != PartFile(inputDir, videoPath, j)
  {
    var name := FileId(videoPath);
    var stem, extension := Paths.Stem(name), Paths.Suffix(name);
    PartNamesDistinct(stem, extension, i + 1, j + 1);
    PartNameRelative(videoPath, i);
    PartNameRelative(videoPath, j);
    Paths.JoinDistinct(OutputDir(inputDir, videoPath), PartName(stem, extension, i + 1), PartName(stem, extension, j + 1));
  }

  /** A part name is relative: it starts with the first character of the file's name, which is not '/'. */
  lemma PartNameRelative(videoPath: string, i: nat)
    ensures var name := FileId(videoPath);
      !Paths.IsAbsolute(PartName(Paths.Stem(name), Paths.Suffix(name), i + 1))
  {
    var name := FileId(videoPath);
    Paths.BaseNameShape(videoPath);
    Paths.StemOfName(name);
  }

  /** No two segments of a plan write the same output file. */
  lemma PlanOutputsDistinct(job: FileJob, inputDir: string, info: VideoInfo, plan: Plan)
    requires plan.count >= 1
    ensures var tasks := PlannedTasks(job, inputDir, info, plan);
      forall i, j :: 0 <= i < j < |tasks| ==> tasks[i].outputFile != tasks[j].outputFile
  {
    var tasks := PlannedTasks(job, inputDir, info, plan);
    forall i, j | 0 <= i < j < |tasks|
      ensures tasks[i].outputFile != tasks[j].outputFile
    {
      TaskListAt(job, inputDir, info, plan, plan.count, i);
      TaskListAt(job, inputDir, info, plan, plan.count, j);
      PartFilesDistinct(inputDir, job.videoPath, i, j);
    }
  }

  /** Below segment 1000 the number in a part name is exactly three digits. */
  lemma PartNumberWidth(stem: string, extension: string, number: nat)
    requires number < 1000
    ensures |PartName(stem, extension, number)| == |stem| + 8 + |extension|
  {
    Decimal.ThreeDigitPad(number);
  }

  // ------------------------------------------------------------ segment runs

  /** The dictionary split_single_segment returns. */
  datatype SegmentResult =
    | SegmentDone(fileId: string, segment: int, total: int, output: string)
    | SegmentFailed(fileId: string, segment: int, total: int, error: string)

  predicate IsSegmentDone(r: SegmentResult) {
    r.SegmentDone?
  }

  /** `split_single_segment`: success exactly when ffmpeg exits 0; a failure keeps at most 500 characters of its standard error. */
  function SplitSingleSegment(task: SegmentTask, run: Media.RunOutcome): (r: SegmentResult)
    ensures r.SegmentDone? <==> Media.Succeeded(run)
    ensures r.fileId == task.fileId && r.segment == task.segmentNum && r.total == task.totalSegments
    ensures r.SegmentDone? ==> r.output == task.outputFile
    ensures r.SegmentFailed? && run.Exited? ==> |r.error| <= 500 && |r.error| <= |run.stderr| && r.error == run.stderr[..|r.error|]
    ensures r.SegmentFailed? && run.Raised? ==> r.error == run.message
  {
    if Media.Succeeded(run) then SegmentDone(task.fileId, task.segmentNum, task.totalSegments, task.outputFile)
    else SegmentFailed(task.fileId, task.segmentNum, task.totalSegments, Media.FailureText(run))
  }

  /** The result of every task, in task order. */
  function SegmentResults(tasks: seq<SegmentTask>, runs: seq<Media.RunOutcome>): (rs: seq<SegmentResult>)
    requires |runs| == |tasks|
    ensures |rs| == |tasks|
  {
    seq(|tasks|, i requires 0 <= i < |tasks| => SplitSingleSegment(tasks[i], runs[i]))
  }

  /** `outputs`: the output files of the successful results, in completion order. */
  function Outputs(rs: seq<SegmentResult>): seq<string> {
    if rs == [] then []
    else
      var r := rs[|rs| - 1];
      Outputs(rs[..|rs| - 1]) + (if r.SegmentDone? then [r.output] else [])
  }

  /** `errors`: the error texts of the failed results, in completion order. */
  function Errors(rs: seq<SegmentResult>): seq<string> {
    if rs == [] then []
    else
      var r := rs[|rs| - 1];
      Errors(rs[..|rs| - 1]) + (if r.SegmentFailed? then [r.error] else [])
  }

  /** Each result goes to exactly one of `outputs` and `errors`. */
  lemma {:induction false} TallySizes(rs: seq<SegmentResult>)
    ensures |Outputs(rs)| == Completion.Count(rs, IsSegmentDone)
    ensures |Outputs(rs)| + |Errors(rs)| == |rs|
  {
    if rs != [] {
      TallySizes(rs[..|rs| - 1]);
    }
  }

  // ------------------------------------------------------------------ events

  /** The results process_video_file returns. */
  datatype FileResult =
    | Unprobed(file: string)
    | Split(success: bool, file: string, outputDir: string, segments: nat, errors: seq<string>)

  predicate FileSucceeded(r: FileResult) {
    r.Split? && r.success
  }

  /** The JSON lines the splitter prints. SEGMENT_START is declared by the script but never printed. */
  datatype Event =
    | Start(totalFiles: nat, splitMethod: string, splitValue: real, fpsMode: string,
            parallelJobs: int, hardwareAcceleration: bool, ffmpegPath: string)
    | Progress(currentFile: nat, totalFiles: nat, filename: string)
    | FileStart(file: string, path: string)
    | FileComplete(file: string, success: bool, segmentsCompleted: nat, segmentsTotal: int, outputDir: string)
    | FileError(file: string, failedSegment: Option<int>, error: string)
    | SegmentComplete(file: string, segment: int, total: int, output: string)
    | Complete(totalFiles: nat, successful: nat, failed: int, results: seq<FileResult>)
    | Error(message: string)

  const ProbeFailedError := "Failed to probe video"

  function ProbeErrorMessage(videoPath: string, message: string): string {
    "Failed to probe " + videoPath + ": " + message
  }

  /** The event printed for one finished segment. */
  function SegmentEvent(fileId: string, r: SegmentResult): Event {
    match r
    case SegmentDone(_, segment, total, output) => SegmentComplete(fileId, segment, total, output)
    case SegmentFailed(_, segment, _, error) => FileError(fileId, Some(segment), error)
  }

  /** The events printed while collecting results in completion order. */
  function TallyEvents(fileId: string, rs: seq<SegmentResult>): (events: seq<Event>)
    ensures |events| == |rs|
  {
    if rs == [] then [] else TallyEvents(fileId, rs[..|rs| - 1]) + [SegmentEvent(fileId, rs[|rs| - 1])]
  }

  /** The results in the order the pool finished them. */
  function Finished(tasks: seq<SegmentTask>, world: FileWorld): seq<SegmentResult>
    requires |world.runs| == |tasks| && Completion.IsPermutation(world.completionOrder, |tasks|)
  {
    Completion.Reorder(SegmentResults(tasks, world.runs), world.completionOrder)
  }

  /**
   * The world is one process_video_file can run in without raising, once
   * the probe has succeeded: the plan is defined, there is at least one
   * worker, every segment has an outcome and the completion order is a
   * permutation of the segments.
   */
  predicate ProbedFits(job: FileJob, info: VideoInfo, world: FileWorld) {
    var plan := FilePlan(job, info);
    && plan.Some?
    && job.parallelJobs >= 1
    && |world.runs| == plan.value.count
    && Completion.IsPermutation(world.completionOrder, plan.value.count)
  }

  predicate WorldFits(job: FileJob, world: FileWorld) {
    var p := ProbeVideo(world.probe);
    p.Probed? ==> ProbedFits(job, p.info, world)
  }

  /** The segment tasks of a probed file. */
  function SplitTasks(job: FileJob, info: VideoInfo, world: FileWorld): (tasks: seq<SegmentTask>)
    requires ProbedFits(job, info, world)
    ensures |tasks| == |world.runs|
  {
    PlannedTasks(job, world.inputDir, info, FilePlan(job, info).value)
  }

  /** The segment results of a probed file, in the order the pool finished them. */
  function SplitDone(job: FileJob, info: VideoInfo, world: FileWorld): seq<SegmentResult>
    requires ProbedFits(job, info, world)
  {
    Finished(SplitTasks(job, info, world), world)
  }

  /** What process_video_file returns for a probed file. */
  function SplitResult(job: FileJob, info: VideoInfo, world: FileWorld): FileResult
    requires ProbedFits(job, info, world)
  {
    var done := SplitDone(job, info, world);
    Split(|Errors(done)| == 0, FileId(job.videoPath), OutputDir(world.inputDir, job.videoPath), |Outputs(done)|, Errors(done))
  }

  /** What process_video_file prints for a probed file after FILE_START. */
  function SplitEvents(job: FileJob, info: VideoInfo, world: FileWorld): seq<Event>
    requires ProbedFits(job, info, world)
  {
    var fileId := FileId(job.videoPath);
    var done := SplitDone(job, info, world);
    TallyEvents(fileId, done)
    + [FileComplete(fileId, |Errors(done)| == 0, |Outputs(done)|, |world.runs|, OutputDir(world.inputDir, job.videoPath))]
  }

  /** The segment tasks process_video_file builds: none when the probe fails. */
  function FileTasks(job: FileJob, world: FileWorld): seq<SegmentTask>
    requires WorldFits(job, world)
  {
    match ProbeVideo(world.probe)
    case Probed(info) => SplitTasks(job, info, world)
    case _ => []
  }

  /** What process_video_file returns. */
  function FileResultOf(job: FileJob, world: FileWorld): FileResult
    requires WorldFits(job, world)
  {
    match ProbeVideo(world.probe)
    case Probed(info) => SplitResult(job, info, world)
    case _ => Unprobed(FileId(job.videoPath))
  }

  /** What process_video_file prints. */
  function FileEvents(job: FileJob, world: FileWorld): seq<Event>
    requires WorldFits(job, world)
  {
    var fileId := FileId(job.videoPath);
    [FileStart(fileId, job.videoPath)] +
    match ProbeVideo(world.probe)
    case ProbeFailed(message) =>
      [Error(ProbeErrorMessage(job.videoPath, message)), FileError(fileId, None, ProbeFailedError)]
    case NoVideoStream => [FileError(fileId, None, ProbeFailedError)]
    case Probed(info) => SplitEvents(job, info, world)
  }

  /** The `as_completed` loop of process_video_file: count, sort into outputs and errors, print one event each. */
  method CollectSegments(fileId: string, tasks: seq<SegmentTask>, world: FileWorld)
    returns (completed: nat, outputs: seq<string>, errors: seq<string>, events: seq<Event>)
    requires |world.runs| == |tasks| && Completion.IsPermutation(world.completionOrder, |tasks|)
    ensures completed == |tasks|
    ensures outputs == Outputs(Finished(tasks, world))
    ensures errors == Errors(Finished(tasks, world))
    ensures events == TallyEvents(fileId, Finished(tasks, world))
  {
    ghost var done := Finished(tasks, world);
    completed, outputs, errors, events := 0, [], [], [];
    for k := 0 to |tasks|
      invariant completed == k
      invariant outputs == Outputs(done[..k])
      invariant errors == Errors(done[..k])
      invariant events == TallyEvents(fileId, done[..k])
    {
      var i := world.completionOrder[k];
      var result := SplitSingleSegment(tasks[i], world.runs[i]);
      assert done[..k + 1] == done[..k] + [result];
      completed := completed + 1;
      if result.SegmentDone? {
        outputs := outputs + [result.output];
        events := events + [SegmentComplete(fileId, result.segment, result.total, result.output)];
      } else {
        errors := errors + [result.error];
        events := events + [FileError(fileId, Some(result.segment), result.error)];
      }
    }
    assert done[..|tasks|] == done;
  }

  /**
   * Whatever the completion order, the results split into as many outputs as
   * successful runs and one error per failed run; so there are no errors
   * exactly when every segment's ffmpeg run exited 0.
   */
  lemma FinishedTally(tasks: seq<SegmentTask>, world: FileWorld)
    requires |world.runs| == |tasks| && Completion.IsPermutation(world.completionOrder, |tasks|)
    ensures var done := Finished(tasks, world);
      && |Outputs(done)| == Completion.Count(SegmentResults(tasks, world.runs), IsSegmentDone)
      && |Outputs(done)| + |Errors(done)| == |tasks|
      && (|Errors(done)| == 0 <==> forall i :: 0 <= i < |world.runs| ==> Media.Succeeded(world.runs[i]))
  {
    var all := SegmentResults(tasks, world.runs);
    var done := Finished(tasks, world);
    TallySizes(done);
    Completion.CountReorder(all, world.completionOrder, IsSegmentDone);
    Completion.CountAll(all, IsSegmentDone);
    forall i | 0 <= i < |all|
      ensures IsSegmentDone(all[i]) <==> Media.Succeeded(world.runs[i])
    {
      assert all[i] == SplitSingleSegment(tasks[i], world.runs[i]);
    }
  }

  /** The part of `process_video_file` after a successful probe: plan the segments, run them in the pool and report. */
  method SplitProbedFile(job: FileJob, info: VideoInfo, world: FileWorld)
    returns (events: seq<Event>, result: FileResult, tasks: seq<SegmentTask>)
    requires ProbedFits(job, info, world)
    ensures events == SplitEvents(job, info, world)
    ensures result == SplitResult(job, info, world)
    ensures tasks == SplitTasks(job, info, world)
  {
    var fileId := Paths.BaseName(job.videoPath);
    var outputDir := Paths.Join(world.inputDir, Paths.Stem(fileId) + "_parts");
    var plan := PlanFor(job.splitMethod, job.splitValue, info.duration).value;
    tasks := BuildSegmentTasks(job, world.inputDir, info, plan);
    // The pool's max_workers; PoolSize's precondition is where the source's pool would raise ValueError.
    var workers := PoolSize(job.parallelJobs, |tasks|);
    var completed, outputs, errors, tallyEvents := CollectSegments(fileId, tasks, world);
    var success := |errors| == 0;
    events := tallyEvents + [FileComplete(fileId, success, |outputs|, |tasks|, outputDir)];
    result := Split(success, fileId, outputDir, |outputs|, errors);
  }

  /**
   * A file succeeds exactly when its probe succeeds and every segment's ffmpeg
   * run exits 0. The segments completed and the errors add up to the segment
   * count, and how many completed does not depend on the order the pool
   * finished them. A file whose probe fails plans no segments.
   */
  lemma FileOutcome(job: FileJob, world: FileWorld)
    requires WorldFits(job, world)
    ensures var result := FileResultOf(job, world);
      FileSucceeded(result) <==> ProbeVideo(world.probe).Probed? && forall i :: 0 <= i < |world.runs| ==> Media.Succeeded(world.runs[i])
    ensures var result, tasks := FileResultOf(job, world), FileTasks(job, world);
      result.Split? ==> && result.segments + |result.errors| == |tasks|
                        && result.segments == Completion.Count(SegmentResults(tasks, world.runs), IsSegmentDone)
    ensures !ProbeVideo(world.probe).Probed? ==> FileResultOf(job, world) == Unprobed(FileId(job.videoPath)) && FileTasks(job, world) == []
  {
    match ProbeVideo(world.probe)
    case Probed(info) =>
      FinishedTally(SplitTasks(job, info, world), world);
    case _ =>
  }

  /** `process_video_file`: FILE_START, the probe, then the segments of a file that could be probed. */
  method ProcessVideoFile(job: FileJob, world: FileWorld)
    returns (events: seq<Event>, result: FileResult, tasks: seq<SegmentTask>)
    requires WorldFits(job, world)
    ensures events == FileEvents(job, world)
    ensures result == FileResultOf(job, world)
    ensures tasks == FileTasks(job, world)
  {
    var fileId := Paths.BaseName(job.videoPath);
    events := [FileStart(fileId, job.videoPath)];
    var probe := ProbeVideo(world.probe);
    match probe {
      case ProbeFailed(message) =>
        events := events + [Error(ProbeErrorMessage(job.videoPath, message)), FileError(fileId, None, ProbeFailedError)];
        result := Unprobed(fileId);
        tasks := [];
      case NoVideoStream =>
        events := events + [FileError(fileId, None, ProbeFailedError)];
        result := Unprobed(fileId);
        tasks := [];
      case Probed(info) =>
        var splitEvents;
        splitEvents, result, tasks := SplitProbedFile(job, info, world);
        events := events + splitEvents;
    }
  }

  // ------------------------------------------------------------------- batch

  /** The job run_batch hands to process_video_file for one valid path. */
  function JobFor(cfg: Config, videoPath: string, ffmpegPath: string, useVideoToolbox: bool): FileJob {
    FileJob(videoPath, cfg.splitMethod, cfg.splitValue, TargetFps(cfg, FileId(videoPath)),
            cfg.parallelJobs, ffmpegPath, useVideoToolbox)
  }

  function Jobs(cfg: Config, valid: seq<string>, ffmpegPath: string, useVideoToolbox: bool): (jobs: seq<FileJob>)
    ensures |jobs| == |valid|
  {
    seq(|valid|, k requires 0 <= k < |valid| => JobFor(cfg, valid[k], ffmpegPath, useVideoToolbox))
  }

  /** The jobs of a batch: one per path that is a file, in input order. */
  function BatchJobs(files: seq<string>, isFile: seq<bool>, settings: Settings, ffmpegPath: string, useVideoToolbox: bool): (jobs: seq<FileJob>)
    requires |isFile| == |files|
    ensures |jobs| == |Batch.ValidFiles(files, isFile)|
  {
    Jobs(ConfigOf(settings), Batch.ValidFiles(files, isFile), ffmpegPath, useVideoToolbox)
  }

  predicate WorldsFit(jobs: seq<FileJob>, worlds: seq<FileWorld>) {
    |worlds| == |jobs| && forall k {:trigger WorldFits(jobs[k], worlds[k])} :: 0 <= k < |jobs| ==> WorldFits(jobs[k], worlds[k])
  }

  /** The results of the first m files, in input order. */
  function ResultsUpTo(jobs: seq<FileJob>, worlds: seq<FileWorld>, m: nat): (results: seq<FileResult>)
    requires WorldsFit(jobs, worlds) && m <= |jobs|
    ensures |results| == m
  {
    if m == 0 then [] else ResultsUpTo(jobs, worlds, m - 1) + [FileResultOf(jobs[m - 1], worlds[m - 1])]
  }

  /** Entry k of the results is what processing file k returned. */
  lemma {:induction false} ResultsUpToAt(jobs: seq<FileJob>, worlds: seq<FileWorld>, m: nat, k: nat)
    requires WorldsFit(jobs, worlds) && k < m <= |jobs|
    ensures ResultsUpTo(jobs, worlds, m)[k] == FileResultOf(jobs[k], worlds[k])
  {
    if k < m - 1 {
      ResultsUpToAt(jobs, worlds, m - 1, k);
    }
  }

  /** The result of every file, in input order. */
  function BatchResults(jobs: seq<FileJob>, worlds: seq<FileWorld>): (results: seq<FileResult>)
    requires WorldsFit(jobs, worlds)
    ensures |results| == |jobs|
  {
    ResultsUpTo(jobs, worlds, |jobs|)
  }

  /** An ERROR line with the given message. */
  function ErrorLine(message: string): Event {
    Error(message)
  }

  /** The events of the first m files, given what processing each file printed: a PROGRESS line, then those events. */
  function Body(jobs: seq<FileJob>, files: seq<seq<Event>>, m: nat): seq<Event>
    requires |files| == |jobs| && m <= |jobs|
  {
    if m == 0 then []
    else
      var k := m - 1;
      Body(jobs, files, k) + [Progress(m, |jobs|, FileId(jobs[k].videoPath))] + files[k]
  }

  /** What process_video_file prints for each of the files. */
  function FileEventLists(jobs: seq<FileJob>, worlds: seq<FileWorld>): (files: seq<seq<Event>>)
    requires WorldsFit(jobs, worlds)
    ensures |files| == |jobs|
    ensures forall k :: 0 <= k < |jobs| ==> files[k] == FileEvents(jobs[k], worlds[k])
  {
    seq(|jobs|, k requires 0 <= k < |jobs| => FileEvents(jobs[k], worlds[k]))
  }

  /** The events of the first m valid files of the batch. */
  function BatchBody(jobs: seq<FileJob>, worlds: seq<FileWorld>, m: nat): seq<Event>
    requires WorldsFit(jobs, worlds) && m <= |jobs|
  {
    Body(jobs, FileEventLists(jobs, worlds), m)
  }

  function StartEvent(cfg: Config, totalFiles: nat, useVideoToolbox: bool, ffmpegPath: string): Event {
    Start(totalFiles, cfg.splitMethod, cfg.splitValue, cfg.fpsMode, cfg.parallelJobs, useVideoToolbox, ffmpegPath)
  }

  /** The summary line: how many files succeeded and how many did not. */
  function CompleteEvent(results: seq<FileResult>): Event {
    var successful := Completion.Count(results, FileSucceeded);
    Complete(|results|, successful, |results| - successful, results)
  }

  /** Everything run_batch prints. */
  function RunEvents(files: seq<string>, isFile: seq<bool>, settings: Settings, ffmpegPath: string,
                     useVideoToolbox: bool, worlds: seq<FileWorld>): seq<Event>
    requires |isFile| == |files|
    requires WorldsFit(BatchJobs(files, isFile, settings, ffmpegPath, useVideoToolbox), worlds)
  {
    var jobs := BatchJobs(files, isFile, settings, ffmpegPath, useVideoToolbox);
    var prefix := Batch.NotFoundLines(Batch.MissingFiles(files, isFile), ErrorLine);
    if jobs == [] then prefix + [Error(Batch.NoValidFilesMessage)]
    else
      prefix + [StartEvent(ConfigOf(settings), |jobs|, useVideoToolbox, ffmpegPath)]
      + BatchBody(jobs, worlds, |jobs|) + [CompleteEvent(BatchResults(jobs, worlds))]
  }

  /** The serial loop of run_batch over the valid files: PROGRESS, then process_video_file, for each in input order. */
  method ProcessFiles(cfg: Config, valid: seq<string>, ffmpegPath: string, useVideoToolbox: bool, worlds: seq<FileWorld>)
    returns (events: seq<Event>, results: seq<FileResult>)
    requires WorldsFit(Jobs(cfg, valid, ffmpegPath, useVideoToolbox), worlds)
    ensures var jobs := Jobs(cfg, valid, ffmpegPath, useVideoToolbox);
      events == BatchBody(jobs, worlds, |jobs|) && results == BatchResults(jobs, worlds)
  {
    ghost var jobs := Jobs(cfg, valid, ffmpegPath, useVideoToolbox);
    events, results := [], [];
    for i := 0 to |valid|
      invariant results == ResultsUpTo(jobs, worlds, i)
      invariant events == BatchBody(jobs, worlds, i)
    {
      var filename := Paths.BaseName(valid[i]);
      events := events + [Progress(i + 1, |valid|, filename)];
      var job := JobFor(cfg, valid[i], ffmpegPath, useVideoToolbox);
      assert job == jobs[i];
      var fileEvents, result, _ := ProcessVideoFile(job, worlds[i]);
      events := events + fileEvents;
      results := results + [result];
    }
  }

  /**
   * `run_batch`. Every path that is not a file gets an ERROR line. If none is
   * left, "No valid files to process" ends the run. Otherwise START, then for
   * each file in input order a PROGRESS line and that file's events, then
   * COMPLETE with the results of all files.
   */
  method RunBatch(files: seq<string>, isFile: seq<bool>, settings: Settings, ffmpegPath: string,
                  useVideoToolbox: bool, worlds: seq<FileWorld>)
    returns (events: seq<Event>, results: seq<FileResult>)
    requires |isFile| == |files|
    requires WorldsFit(BatchJobs(files, isFile, settings, ffmpegPath, useVideoToolbox), worlds)
    ensures events == RunEvents(files, isFile, settings, ffmpegPath, useVideoToolbox, worlds)
    ensures results == BatchResults(BatchJobs(files, isFile, settings, ffmpegPath, useVideoToolbox), worlds)
  {
    var cfg := ConfigOf(settings);
    var valid, missing := Batch.ValidateFiles(files, isFile);
    ghost var jobs := BatchJobs(files, isFile, settings, ffmpegPath, useVideoToolbox);
    assert jobs == Jobs(cfg, valid, ffmpegPath, useVideoToolbox);
    events := Batch.NotFoundLines(missing, ErrorLine);
    if |valid| == 0 {
      events := events + [Error(Batch.NoValidFilesMessage)];
      results := [];
      return;
    }
    var start := StartEvent(cfg, |valid|, useVideoToolbox, ffmpegPath);
    var body;
    body, results := ProcessFiles(cfg, valid, ffmpegPath, useVideoToolbox, worlds);
    var successful := Completion.Count(results, FileSucceeded);
    var failed := |results| - successful;
    var complete := Complete(|valid|, successful, failed, results);
    assert complete == CompleteEvent(BatchResults(jobs, worlds));
    events := events + [start] + body + [complete];
  }


  // ------------------------------------------------------ properties of a run

  /** The PROGRESS lines of an event stream, in order. */
  function ProgressLines(events: seq<Event>): seq<Event> {
    if events == [] then []
    else
      var e := events[|events| - 1];
      ProgressLines(events[..|events| - 1]) + (if e.Progress? then [e] else [])
  }

  lemma {:induction false} ProgressLinesAppend(a: seq<Event>, b: seq<Event>)
    ensures ProgressLines(a + b) == ProgressLines(a) + ProgressLines(b)
    decreases |b|
  {
    if b == [] {
      assert a + b == a;
    } else {
      assert (a + b)[..|a + b| - 1] == a + b[..|b| - 1];
      ProgressLinesAppend(a, b[..|b| - 1]);
    }
  }

  /** A line that belongs to one file: not START, PROGRESS or COMPLETE, which belong to the batch. */
  predicate FileLevel(e: Event) {
    !e.Start? && !e.Progress? && !e.Complete?
  }

  predicate AllFileLevel(events: seq<Event>) {
    forall k :: 0 <= k < |events| ==> FileLevel(events[k])
  }

  /** No START and no COMPLETE line. */
  predicate Unframed(events: seq<Event>) {
    forall k :: 0 <= k < |events| ==> !events[k].Start? && !events[k].Complete?
  }

  lemma AllFileLevelAppend(a: seq<Event>, b: seq<Event>)
    requires AllFileLevel(a) && AllFileLevel(b)
    ensures AllFileLevel(a + b)
  {
    forall k | 0 <= k < |a + b|
      ensures FileLevel((a + b)[k])
    {
      if k < |a| {
        assert (a + b)[k] == a[k];
      } else {
        assert (a + b)[k] == b[k - |a|];
      }
    }
  }

  lemma UnframedAppend(a: seq<Event>, b: seq<Event>)
    requires Unframed(a) && Unframed(b)
    ensures Unframed(a + b)
  {
    forall k | 0 <= k < |a + b|
      ensures !(a + b)[k].Start? && !(a + b)[k].Complete?
    {
      if k < |a| {
        assert (a + b)[k] == a[k];
      } else {
        assert (a + b)[k] == b[k - |a|];
      }
    }
  }

  lemma {:induction false} NoProgressLines(events: seq<Event>)
    requires AllFileLevel(events)
    ensures ProgressLines(events) == []
  {
    if events != [] {
      NoProgressLines(events[..|events| - 1]);
    }
  }

  lemma {:induction false} TallyEventsFileLevel(fileId: string, rs: seq<SegmentResult>)
    ensures AllFileLevel(TallyEvents(fileId, rs))
  {
    if rs != [] {
      TallyEventsFileLevel(fileId, rs[..|rs| - 1]);
      AllFileLevelAppend(TallyEvents(fileId, rs[..|rs| - 1]), [SegmentEvent(fileId, rs[|rs| - 1])]);
    }
  }

  /** Processing one file prints only lines that belong to that file. */
  lemma FileEventsFileLevel(job: FileJob, world: FileWorld)
    requires WorldFits(job, world)
    ensures AllFileLevel(FileEvents(job, world))
  {
    var fileId := FileId(job.videoPath);
    match ProbeVideo(world.probe)
    case Probed(info) =>
      SplitEventsFileLevel(job, info, world);
      AllFileLevelAppend([FileStart(fileId, job.videoPath)], SplitEvents(job, info, world));
    case _ =>
  }

  lemma SplitEventsFileLevel(job: FileJob, info: VideoInfo, world: FileWorld)
    requires ProbedFits(job, info, world)
    ensures AllFileLevel(SplitEvents(job, info, world))
  {
    var fileId := FileId(job.videoPath);
    var done := SplitDone(job, info, world);
    TallyEventsFileLevel(fileId, done);
    AllFileLevelAppend(TallyEvents(fileId, done),
      [FileComplete(fileId, |Errors(done)| == 0, |Outputs(done)|, |world.runs|, OutputDir(world.inputDir, job.videoPath))]);
  }

  /** The PROGRESS lines run_batch prints before the first m files: numbered 1..m of all, each naming its file. */
  function ProgressSchedule(jobs: seq<FileJob>, m: nat): (lines: seq<Event>)
    requires m <= |jobs|
    ensures |lines| == m
  {
    if m == 0 then [] else ProgressSchedule(jobs, m - 1) + [Progress(m, |jobs|, FileId(jobs[m - 1].videoPath))]
  }

  lemma {:induction false} ProgressScheduleAt(jobs: seq<FileJob>, m: nat, k: nat)
    requires k < m <= |jobs|
    ensures ProgressSchedule(jobs, m)[k] == Progress(k + 1, |jobs|, FileId(jobs[k].videoPath))
  {
    if k < m - 1 {
      ProgressScheduleAt(jobs, m - 1, k);
    }
  }

  /** Every file's events are file-level lines. */
  predicate FilesFileLevel(files: seq<seq<Event>>) {
    forall k :: 0 <= k < |files| ==> AllFileLevel(files[k])
  }

  lemma BatchFilesFileLevel(jobs: seq<FileJob>, worlds: seq<FileWorld>)
    requires WorldsFit(jobs, worlds)
    ensures FilesFileLevel(FileEventLists(jobs, worlds))
  {
    var files := FileEventLists(jobs, worlds);
    forall k | 0 <= k < |files|
      ensures AllFileLevel(files[k])
    {
      FileEventsFileLevel(jobs[k], worlds[k]);
    }
  }

  /** The PROGRESS lines among the events of the first m files are exactly the schedule. */
  lemma {:induction false} BodyProgress(jobs: seq<FileJob>, files: seq<seq<Event>>, m: nat)
    requires |files| == |jobs| && m <= |jobs| && FilesFileLevel(files)
    ensures ProgressLines(Body(jobs, files, m)) == ProgressSchedule(jobs, m)
  {
    if m > 0 {
      var before := Body(jobs, files, m - 1);
      var line := [Progress(m, |jobs|, FileId(jobs[m - 1].videoPath))];
      var file := files[m - 1];
      BodyProgress(jobs, files, m - 1);
      NoProgressLines(file);
      ProgressLinesAppend(before + line, file);
      ProgressLinesAppend(before, line);
      assert line[..0] == [];
    }
  }

  /** The events of the files hold no START and no COMPLETE. */
  lemma {:induction false} BodyUnframed(jobs: seq<FileJob>, files: seq<seq<Event>>, m: nat)
    requires |files| == |jobs| && m <= |jobs| && FilesFileLevel(files)
    ensures Unframed(Body(jobs, files, m))
  {
    if m > 0 {
      BodyUnframed(jobs, files, m - 1);
      UnframedStep(Body(jobs, files, m - 1), Progress(m, |jobs|, FileId(jobs[m - 1].videoPath)), files[m - 1]);
    }
  }

  /** A progress line and the lines of one file keep a body free of START and COMPLETE. */
  lemma UnframedStep(before: seq<Event>, line: Event, file: seq<Event>)
    requires Unframed(before) && line.Progress? && AllFileLevel(file)
    ensures Unframed(before + [line] + file)
  {
    UnframedAppend(before, [line]);
    UnframedAppend(before + [line], file);
  }

  /** In a stream START, unframed lines, COMPLETE, the two sit exactly at their own places. */
  lemma FramePositions(prefix: seq<Event>, start: Event, body: seq<Event>, complete: Event)
    requires Unframed(prefix) && Unframed(body) && start.Start? && complete.Complete?
    ensures var events := prefix + [start] + body + [complete];
      forall k :: 0 <= k < |events| ==> (events[k].Start? <==> k == |prefix|) && (events[k].Complete? <==> k == |events| - 1)
  {
    var events := prefix + [start] + body + [complete];
    forall k | 0 <= k < |events|
      ensures (events[k].Start? <==> k == |prefix|) && (events[k].Complete? <==> k == |events| - 1)
    {
      if k < |prefix| {
        assert events[k] == prefix[k];
      } else if k == |prefix| {
        assert events[k] == start;
      } else if k < |events| - 1 {
        assert events[k] == body[k - |prefix| - 1];
      }
    }
  }

  /** Framing lines that are not PROGRESS leave only the body's PROGRESS lines. */
  lemma ProgressOfFrame(prefix: seq<Event>, start: Event, body: seq<Event>, complete: Event)
    requires AllFileLevel(prefix) && !start.Progress? && !complete.Progress?
    ensures ProgressLines(prefix + [start] + body + [complete]) == ProgressLines(body)
  {
    NoProgressLines(prefix);
    ProgressLinesAppend(prefix + [start] + body, [complete]);
    ProgressLinesAppend(prefix + [start], body);
    ProgressLinesAppend(prefix, [start]);
    assert [start][..0] == [] && [complete][..0] == [];
  }

  /** The PROGRESS lines of a whole run are the schedule of all its valid files. */
  lemma RunProgress(files: seq<string>, isFile: seq<bool>, settings: Settings, ffmpegPath: string,
                    useVideoToolbox: bool, worlds: seq<FileWorld>)
    requires |isFile| == |files|
    requires WorldsFit(BatchJobs(files, isFile, settings, ffmpegPath, useVideoToolbox), worlds)
    ensures var jobs := BatchJobs(files, isFile, settings, ffmpegPath, useVideoToolbox);
      ProgressLines(RunEvents(files, isFile, settings, ffmpegPath, useVideoToolbox, worlds)) == ProgressSchedule(jobs, |jobs|)
  {
    var jobs := BatchJobs(files, isFile, settings, ffmpegPath, useVideoToolbox);
    var prefix := Batch.NotFoundLines(Batch.MissingFiles(files, isFile), ErrorLine);
    assert AllFileLevel(prefix);
    if jobs == [] {
      AllFileLevelAppend(prefix, [Error(Batch.NoValidFilesMessage)]);
      NoProgressLines(prefix + [Error(Batch.NoValidFilesMessage)]);
    } else {
      BatchFilesFileLevel(jobs, worlds);
      BodyProgress(jobs, FileEventLists(jobs, worlds), |jobs|);
      ProgressOfFrame(prefix, StartEvent(ConfigOf(settings), |jobs|, useVideoToolbox, ffmpegPath),
        BatchBody(jobs, worlds, |jobs|), CompleteEvent(BatchResults(jobs, worlds)));
    }
  }

  /** PROGRESS lines appear once per valid file, numbered 1..n in input order, each naming its file. */
  lemma ProgressInInputOrder(files: seq<string>, isFile: seq<bool>, settings: Settings, ffmpegPath: string,
                             useVideoToolbox: bool, worlds: seq<FileWorld>)
    requires |isFile| == |files|
    requires WorldsFit(BatchJobs(files, isFile, settings, ffmpegPath, useVideoToolbox), worlds)
    ensures var lines, valid := ProgressLines(RunEvents(files, isFile, settings, ffmpegPath, useVideoToolbox, worlds)),
                                Batch.ValidFiles(files, isFile);
      && |lines| == |valid|
      && forall k :: 0 <= k < |valid| ==> lines[k] == Progress(k + 1, |valid|, Paths.BaseName(valid[k]))
  {
    var jobs := BatchJobs(files, isFile, settings, ffmpegPath, useVideoToolbox);
    RunProgress(files, isFile, settings, ffmpegPath, useVideoToolbox, worlds);
    forall k | 0 <= k < |jobs|
      ensures ProgressSchedule(jobs, |jobs|)[k] == Progress(k + 1, |jobs|, Paths.BaseName(Batch.ValidFiles(files, isFile)[k]))
    {
      ProgressScheduleAt(jobs, |jobs|, k);
    }
  }

  /**
   * The paths that are not files are reported first, in input order. With no
   * valid file the run ends there with "No valid files to process" and has no
   * START or COMPLETE; otherwise START comes next and COMPLETE last, and
   * neither appears anywhere else.
   */
  lemma RunFrame(files: seq<string>, isFile: seq<bool>, settings: Settings, ffmpegPath: string,
                 useVideoToolbox: bool, worlds: seq<FileWorld>)
    requires |isFile| == |files|
    requires WorldsFit(BatchJobs(files, isFile, settings, ffmpegPath, useVideoToolbox), worlds)
    ensures var events := RunEvents(files, isFile, settings, ffmpegPath, useVideoToolbox, worlds);
      var missing := Batch.MissingFiles(files, isFile);
      && |missing| < |events|
      && (forall k :: 0 <= k < |missing| ==> events[k] == Error(Batch.NotFoundMessage(missing[k])))
      && (Batch.ValidFiles(files, isFile) == [] ==>
            events[|missing|..] == [Error(Batch.NoValidFilesMessage)] && Unframed(events))
      && (Batch.ValidFiles(files, isFile) != [] ==>
            && (forall k :: 0 <= k < |events| ==> (events[k].Start? <==> k == |missing|))
            && (forall k :: 0 <= k < |events| ==> (events[k].Complete? <==> k == |events| - 1))
            && events[|missing|].totalFiles == |Batch.ValidFiles(files, isFile)|)
  {
    var jobs := BatchJobs(files, isFile, settings, ffmpegPath, useVideoToolbox);
    var prefix := Batch.NotFoundLines(Batch.MissingFiles(files, isFile), ErrorLine);
    assert Unframed(prefix);
    if jobs == [] {
      UnframedAppend(prefix, [Error(Batch.NoValidFilesMessage)]);
    } else {
      BatchFilesFileLevel(jobs, worlds);
      BodyUnframed(jobs, FileEventLists(jobs, worlds), |jobs|);
      FramePositions(prefix, StartEvent(ConfigOf(settings), |jobs|, useVideoToolbox, ffmpegPath),
        BatchBody(jobs, worlds, |jobs|), CompleteEvent(BatchResults(jobs, worlds)));
    }
  }

  /**
   * COMPLETE counts a file as successful exactly when its probe succeeded and
   * every one of its segments' ffmpeg runs exited 0; successful and failed
   * add up to the number of valid files.
   */
  lemma CompleteCounts(jobs: seq<FileJob>, worlds: seq<FileWorld>)
    requires WorldsFit(jobs, worlds)
    ensures var e := CompleteEvent(BatchResults(jobs, worlds));
      && e.totalFiles == |jobs|
      && e.successful + e.failed == |jobs|
      && e.successful == Completion.Count(BatchResults(jobs, worlds), FileSucceeded)
      && forall k :: 0 <= k < |jobs| ==>
           (FileSucceeded(e.results[k]) <==>
              ProbeVideo(worlds[k].probe).Probed? && forall i :: 0 <= i < |worlds[k].runs| ==> Media.Succeeded(worlds[k].runs[i]))
  {
    var results := BatchResults(jobs, worlds);
    forall k | 0 <= k < |jobs|
      ensures FileSucceeded(results[k]) <==>
                ProbeVideo(worlds[k].probe).Probed? && forall i :: 0 <= i < |worlds[k].runs| ==> Media.Succeeded(worlds[k].runs[i])
    {
      ResultsUpToAt(jobs, worlds, |jobs|, k);
      FileOutcome(jobs[k], worlds[k]);
    }
  }

  /** Every segment task of a file carries that file's path, target frame rate, encoder and ffmpeg. */
  lemma FileTasksUseJob(job: FileJob, world: FileWorld)
    requires WorldFits(job, world)
    ensures var tasks := FileTasks(job, world);
      forall i :: 0 <= i < |tasks| ==>
        && tasks[i].videoPath == job.videoPath
        && tasks[i].targetFps == job.targetFps
        && tasks[i].encoder == Media.Encoder(job.useVideoToolbox)
        && tasks[i].ffmpegPath == job.ffmpegPath
  {
    match ProbeVideo(world.probe)
    case Probed(info) =>
      var plan := FilePlan(job, info).value;
      var tasks := FileTasks(job, world);
      forall i | 0 <= i < |tasks|
        ensures tasks[i] == PlannedTask(job, world.inputDir, info, plan, i)
      {
        TaskListAt(job, world.inputDir, info, plan, plan.count, i);
      }
    case _ =>
  }

  /** Every segment of valid file k is encoded at the frame rate chosen for that file's name, with the batch's encoder and ffmpeg. */
  lemma TasksUseFileSettings(files: seq<string>, isFile: seq<bool>, settings: Settings, ffmpegPath: string,
                             useVideoToolbox: bool, worlds: seq<FileWorld>, k: nat)
    requires |isFile| == |files|
    requires WorldsFit(BatchJobs(files, isFile, settings, ffmpegPath, useVideoToolbox), worlds)
    requires k < |Batch.ValidFiles(files, isFile)|
    ensures var jobs, path := BatchJobs(files, isFile, settings, ffmpegPath, useVideoToolbox), Batch.ValidFiles(files, isFile)[k];
      var tasks := FileTasks(jobs[k], worlds[k]);
      forall i :: 0 <= i < |tasks| ==>
        && tasks[i].videoPath == path
        && tasks[i].targetFps == TargetFps(ConfigOf(settings), Paths.BaseName(path))
        && tasks[i].encoder == Media.Encoder(useVideoToolbox)
        && tasks[i].ffmpegPath == ffmpegPath
  {
    var jobs := BatchJobs(files, isFile, settings, ffmpegPath, useVideoToolbox);
    FileTasksUseJob(jobs[k], worlds[k]);
  }
}
