# Video splitter and audio separator batch workers

This project models the planning and accounting core of the two batch workers that the VideoTools app
starts:

- `video_splitter_batch.py` cuts each input video into numbered segments and re-encodes every segment with ffmpeg. Files are handled one after another; the segments of one file run in a process pool.
- `video_audio_separator_batch.py` writes the video stream of each file as an `.mp4` without audio. It writes the audio as a `.wav`, trying three conversions and then a raw AAC copy. Files run in a process pool.

Each worker reads a JSON job and prints one JSON event per line. The model covers the following:

- the settings and their defaults;
- which paths are valid files;
- the per-file frame rate or sample rate;
- the segment plan (count, length, start times, part names);
- the output paths;
- the ffmpeg commands and the fallback order of the audio conversions;
- when a segment, a stream or a file counts as a success;
- the exact sequence of events a run prints;
- the summary counts.

The outside world is an input to the model:

- what ffprobe reported;
- how each ffmpeg run ended and how large its output file is;
- whether each path is a file;
- the directory of each file's absolute path;
- the order in which the process pool finished its tasks, given as a permutation of the indices of the files or segments.

Each worker's operations are proved against specification functions, and lemmas state what a run promises for every such input.

Modules:

- `Wrappers`: `Option`.
- `Decimal`: decimal text of integers, zero padding, reading digits back.
- `Paths`: `Path.name`, `.stem`, `.suffix`, `os.path.join`, `str.replace`.
- `Media`: what ffprobe and ffmpeg report, the encoder choice, the bit rate fallback, the 500-character stderr excerpt.
- `Completion`: completion orders as permutations; counting is independent of the order.
- `Batch`: validation of the input paths, which both workers share.
- `Splitter` and `Separator`: the two workers.

## Model

All source paths are under `VideoToolsApp/Products/VideoTools.app/Contents/Resources/`; the table writes them in full.

| member | source | states |
|---|---|---|
| Batch.ValidateFiles | VideoToolsApp/Products/VideoTools.app/Contents/Resources/video_splitter_batch.py:320-326 | the validation loop returns exactly the file paths and the missing paths, each in input order (the separator's loop at lines 285-290 is identical) |
| Batch.ValidationPartitions | VideoToolsApp/Products/VideoTools.app/Contents/Resources/video_splitter_batch.py:321-326 | every input path lands in exactly one of the two lists: their multisets add up to the input's |
| Batch.ValidationSizes | VideoToolsApp/Products/VideoTools.app/Contents/Resources/video_splitter_batch.py:321-326 | the valid and the missing paths number as many as the inputs |
| Batch.ValidFilesAreFiles | VideoToolsApp/Products/VideoTools.app/Contents/Resources/video_splitter_batch.py:323-324 | every valid path is an input path for which isfile held |
| Batch.MissingFilesAreNotFiles | VideoToolsApp/Products/VideoTools.app/Contents/Resources/video_splitter_batch.py:325-326 | every path reported not found is an input path for which isfile failed |
| Batch.AllFilesValid | VideoToolsApp/Products/VideoTools.app/Contents/Resources/video_splitter_batch.py:321-324 | when every path is a file, all are kept in order and none is reported missing |
| Completion.CountReorder | VideoToolsApp/Products/VideoTools.app/Contents/Resources/video_audio_separator_batch.py:362-363 | counting the results that satisfy a test in completion order gives the same number as counting them in task order |
| Completion.AllReorder | VideoToolsApp/Products/VideoTools.app/Contents/Resources/video_splitter_batch.py:274 | a test holds of every result in completion order exactly when it holds of every task's result |
| Decimal.ValueOfDigits | VideoToolsApp/Products/VideoTools.app/Contents/Resources/video_audio_separator_batch.py:348 | the decimal text of a count is all digits and reads back as that count |
| Decimal.ZeroPadValue | VideoToolsApp/Products/VideoTools.app/Contents/Resources/video_splitter_batch.py:233 | `:03d` text is at least as wide as asked, all digits, and reads back as the number |
| Decimal.ZeroPadInjective | VideoToolsApp/Products/VideoTools.app/Contents/Resources/video_splitter_batch.py:233 | two numbers padded to the same width give the same text only if they are equal |
| Decimal.ThreeDigitPad | VideoToolsApp/Products/VideoTools.app/Contents/Resources/video_splitter_batch.py:233 | below 1000, `:03d` gives exactly three characters |
| Decimal.IntTextValue | VideoToolsApp/Products/VideoTools.app/Contents/Resources/video_audio_separator_batch.py:147 | `str()` of an int is its digits, after a '-' when it is negative, and reads back as the int |
| Media.StderrExcerpt | VideoToolsApp/Products/VideoTools.app/Contents/Resources/video_splitter_batch.py:179 | `stderr[:500]` is a prefix of stderr, at most 500 characters long, and all of it when stderr is shorter |
| Media.Encoder | VideoToolsApp/Products/VideoTools.app/Contents/Resources/video_splitter_batch.py:227 | the encoder is h264_videotoolbox exactly when VideoToolbox is used, and libx264 exactly when it is not |
| Media.BitRate | VideoToolsApp/Products/VideoTools.app/Contents/Resources/video_splitter_batch.py:108-114 | the stream's bit rate if present, else the container's, else 2 000 000 |
| Paths.BaseNameShape | VideoToolsApp/Products/VideoTools.app/Contents/Resources/video_splitter_batch.py:202 | a path's name holds no '/', ends the path, and is the whole path when the path has no '/' |
| Paths.StemSuffixSplit | VideoToolsApp/Products/VideoTools.app/Contents/Resources/video_splitter_batch.py:222-223 | a name is its stem followed by its suffix; the suffix is empty or a '.' and at least one more character with no other '.'; only a non-empty stem has a suffix |
| Paths.StemOfName | VideoToolsApp/Products/VideoTools.app/Contents/Resources/video_splitter_batch.py:222 | the stem of a name without '/' has no '/' and starts with the name's first character |
| Paths.JoinExtends | VideoToolsApp/Products/VideoTools.app/Contents/Resources/video_splitter_batch.py:224 | joining a relative component gives a path that starts with the directory and ends with the component |
| Paths.JoinDistinct | VideoToolsApp/Products/VideoTools.app/Contents/Resources/video_splitter_batch.py:233 | joining different relative components to one directory gives different paths |
| Paths.ReplaceAllSkipsDotFree | VideoToolsApp/Products/VideoTools.app/Contents/Resources/video_audio_separator_batch.py:191 | `str.replace` of a pattern starting with '.' leaves a leading text with no '.' untouched |
| Splitter.ConfigOf | VideoToolsApp/Products/VideoTools.app/Contents/Resources/video_splitter_batch.py:310-318 | each setting that is present is taken as given; each absent one gets its default ("duration", 60, "single", 30, no per-file values, 4 jobs) |
| Splitter.TargetFps | VideoToolsApp/Products/VideoTools.app/Contents/Resources/video_splitter_batch.py:354-358 | in per-file mode a file named in the table gets its own frame rate; every other file gets the single value |
| Splitter.Ceil | VideoToolsApp/Products/VideoTools.app/Contents/Resources/video_splitter_batch.py:215 | `math.ceil` gives the least integer not below its argument |
| Splitter.Trunc | VideoToolsApp/Products/VideoTools.app/Contents/Resources/video_splitter_batch.py:217 | `int()` of a float truncates toward zero, for both signs |
| Splitter.PlanFor | VideoToolsApp/Products/VideoTools.app/Contents/Resources/video_splitter_batch.py:211-218 | a plan has at least one segment; a zero split value by duration has no plan; by count there is a plan exactly when int(split_value) >= 1 |
| Splitter.DurationPlanReachesEnd | VideoToolsApp/Products/VideoTools.app/Contents/Resources/video_splitter_batch.py:213-215 | by duration, segments are split_value long and their count is the least that reaches the end of the file |
| Splitter.DurationPlanNeedsLength | VideoToolsApp/Products/VideoTools.app/Contents/Resources/video_splitter_batch.py:213-215 | by duration, a file of length 0 or less gets no plan, so no segment task is built |
| Splitter.CountPlanTilesDuration | VideoToolsApp/Products/VideoTools.app/Contents/Resources/video_splitter_batch.py:216-218 | by count, there are int(split_value) segments of equal length that together last exactly the file's duration |
| Splitter.PlanCoversFile | VideoToolsApp/Products/VideoTools.app/Contents/Resources/video_splitter_batch.py:211-231 | every instant of the file lies in one of the plan's segments |
| Splitter.FloorSegment | VideoToolsApp/Products/VideoTools.app/Contents/Resources/video_splitter_batch.py:230-231 | an instant before the end of the plan lies in segment floor(t / length), which is one of the plan's segments |
| Splitter.PoolSize | VideoToolsApp/Products/VideoTools.app/Contents/Resources/video_splitter_batch.py:246-247 | the pool has at least one worker and at most as many as the segments and the parallel jobs, and as many as one of the two |
| Splitter.ProbeVideo | VideoToolsApp/Products/VideoTools.app/Contents/Resources/video_splitter_batch.py:82-126 | no video stream gives None; an ffprobe failure or a missing container duration is an exception; otherwise the container duration, the stream frame rate and the fallback bit rate |
| Splitter.StartTimeIsProduct | VideoToolsApp/Products/VideoTools.app/Contents/Resources/video_splitter_batch.py:231 | segment i starts at i times the segment length |
| Splitter.BuildSegmentTasks | VideoToolsApp/Products/VideoTools.app/Contents/Resources/video_splitter_batch.py:229-239 | the segment loop builds exactly the plan's segment tasks, in order |
| Splitter.PlanNumbering | VideoToolsApp/Products/VideoTools.app/Contents/Resources/video_splitter_batch.py:229-239 | segment i is numbered i + 1 of the total count and asks for the plan's length |
| Splitter.PlanContiguous | VideoToolsApp/Products/VideoTools.app/Contents/Resources/video_splitter_batch.py:230-231 | the first segment starts at 0 and each segment starts where the previous one ends |
| Splitter.PartNamesDistinct | VideoToolsApp/Products/VideoTools.app/Contents/Resources/video_splitter_batch.py:233 | different segment numbers give different part names |
| Splitter.PartFilesDistinct | VideoToolsApp/Products/VideoTools.app/Contents/Resources/video_splitter_batch.py:224-233 | two segments of one file never write to the same path |
| Splitter.PartNameRelative | VideoToolsApp/Products/VideoTools.app/Contents/Resources/video_splitter_batch.py:222-233 | a part name starts with the first character of the file's name, which is not '/', so the join keeps the output directory |
| Splitter.PlanOutputsDistinct | VideoToolsApp/Products/VideoTools.app/Contents/Resources/video_splitter_batch.py:229-239 | no two tasks of a plan have the same output file |
| Splitter.PartNumberWidth | VideoToolsApp/Products/VideoTools.app/Contents/Resources/video_splitter_batch.py:233 | below segment 1000 a part name is the stem, "_part", three digits and the extension |
| Splitter.SplitSingleSegment | VideoToolsApp/Products/VideoTools.app/Contents/Resources/video_splitter_batch.py:129-188 | a segment succeeds exactly when ffmpeg exits 0 and then reports its output file; a failure carries at most the first 500 characters of stderr, or the exception text; the segment number and total are those it was given |
| Splitter.TallySizes | VideoToolsApp/Products/VideoTools.app/Contents/Resources/video_splitter_batch.py:254-272 | every result goes to exactly one of outputs and errors, and the outputs number the successful results |
| Splitter.CollectSegments | VideoToolsApp/Products/VideoTools.app/Contents/Resources/video_splitter_batch.py:249-272 | the collection loop counts every task, and collects the outputs, the errors and one event per result, in completion order |
| Splitter.FinishedTally | VideoToolsApp/Products/VideoTools.app/Contents/Resources/video_splitter_batch.py:249-274 | whatever the completion order, the outputs number the successful runs, outputs and errors add up to the segment count, and there are no errors exactly when every run exited 0 |
| Splitter.SplitProbedFile | VideoToolsApp/Products/VideoTools.app/Contents/Resources/video_splitter_batch.py:211-290 | after a successful probe, the tasks, events and result are those of the plan's segments collected in completion order |
| Splitter.FileOutcome | VideoToolsApp/Products/VideoTools.app/Contents/Resources/video_splitter_batch.py:206-290 | a file succeeds exactly when it was probed and every segment run exited 0; completed plus errors is the segment count, whatever the order; a file that was not probed has no tasks and fails |
| Splitter.ProcessVideoFile | VideoToolsApp/Products/VideoTools.app/Contents/Resources/video_splitter_batch.py:191-290 | FILE_START, then FILE_ERROR when the probe fails, or else the segment events and FILE_COMPLETE; it returns the file's result |
| Splitter.FileEventsFileLevel | VideoToolsApp/Products/VideoTools.app/Contents/Resources/video_splitter_batch.py:191-290 | processing a file prints no START, PROGRESS or COMPLETE line |
| Splitter.ProcessFiles | VideoToolsApp/Products/VideoTools.app/Contents/Resources/video_splitter_batch.py:351-376 | the serial loop prints, for each valid file in input order, a PROGRESS line and then that file's events, and collects the results in input order |
| Splitter.RunBatch | VideoToolsApp/Products/VideoTools.app/Contents/Resources/video_splitter_batch.py:293-388 | the whole run prints the specified event sequence and returns the results of the valid files in input order |
| Splitter.RunProgress | VideoToolsApp/Products/VideoTools.app/Contents/Resources/video_splitter_batch.py:351-376 | the PROGRESS lines of a whole run are exactly one per valid file, in order |
| Splitter.ProgressInInputOrder | VideoToolsApp/Products/VideoTools.app/Contents/Resources/video_splitter_batch.py:360-365 | PROGRESS line k is numbered k + 1 of the number of valid files and names the k-th valid file |
| Splitter.RunFrame | VideoToolsApp/Products/VideoTools.app/Contents/Resources/video_splitter_batch.py:320-388 | the missing paths are reported first, in order; with no valid file, "No valid files to process" follows and there is no START or COMPLETE; otherwise START comes right after them and COMPLETE is last, and neither appears anywhere else |
| Splitter.CompleteCounts | VideoToolsApp/Products/VideoTools.app/Contents/Resources/video_splitter_batch.py:378-388 | COMPLETE counts a file as successful exactly when it was probed and all its segment runs exited 0; successful plus failed is the number of valid files |
| Splitter.FileTasksUseJob | VideoToolsApp/Products/VideoTools.app/Contents/Resources/video_splitter_batch.py:227-239 | every segment task of a file carries that file's path, frame rate, encoder and ffmpeg path |
| Splitter.TasksUseFileSettings | VideoToolsApp/Products/VideoTools.app/Contents/Resources/video_splitter_batch.py:351-375 | every segment of the k-th valid file is encoded at the frame rate chosen for that file's name, with the batch's encoder and ffmpeg path |
| Separator.ConfigOf | VideoToolsApp/Products/VideoTools.app/Contents/Resources/video_audio_separator_batch.py:277-283 | each setting that is present is taken as given; each absent one gets its default ("single", 48000, no per-file rates, 4 jobs) |
| Separator.SampleRateFor | VideoToolsApp/Products/VideoTools.app/Contents/Resources/video_audio_separator_batch.py:316-320 | in per-file mode a file named in the table gets its own rate; every other file gets the single rate |
| Separator.DefaultSampleRateEverywhere | VideoToolsApp/Products/VideoTools.app/Contents/Resources/video_audio_separator_batch.py:277-283 | without a config object every file is converted at 48000 Hz |
| Separator.ProbeVideo | VideoToolsApp/Products/VideoTools.app/Contents/Resources/video_audio_separator_batch.py:75-133 | None exactly when ffprobe failed or there is no video stream; otherwise the fallback bit rate, the stream's frame rate, and has_audio exactly when there is an audio stream |
| Separator.OutputPaths | VideoToolsApp/Products/VideoTools.app/Contents/Resources/video_audio_separator_batch.py:225-232 | the output directory is `{stem}_separated` inside the input directory; the video and the audio are `{stem}_video.mp4` and `{stem}_audio.wav` in it, end in .mp4 and .wav, and are different paths |
| Separator.VideoCommandShape | VideoToolsApp/Products/VideoTools.app/Contents/Resources/video_audio_separator_batch.py:141-155 | the video command uses the chosen encoder, drops the audio, ends with the output file, has the medium preset exactly for libx264, and its bit-rate argument reads back as the probed bit rate |
| Separator.ExtractVideoStream | VideoToolsApp/Products/VideoTools.app/Contents/Resources/video_audio_separator_batch.py:136-163 | the video record is a success exactly when ffmpeg exits 0, and then names the output; otherwise it carries the failure text |
| Separator.AudioCommandsShape | VideoToolsApp/Products/VideoTools.app/Contents/Resources/video_audio_separator_batch.py:171-193 | every audio command drops the video and writes its own output file last |
| Separator.RawAudioPathBeside | VideoToolsApp/Products/VideoTools.app/Contents/Resources/video_audio_separator_batch.py:191 | the intended AAC path differs from the WAV path only in its extension |
| Separator.AudioOutputInside | VideoToolsApp/Products/VideoTools.app/Contents/Resources/video_audio_separator_batch.py:225-232 | the WAV path lies inside the input directory, at least ten characters below it, and ends in .wav |
| Separator.RawPathsAgree | VideoToolsApp/Products/VideoTools.app/Contents/Resources/video_audio_separator_batch.py:191 | when ".wav" occurs in the WAV path only as its extension, the path the source writes the raw copy to is the intended one |
| Separator.RawAudioPathInside | VideoToolsApp/Products/VideoTools.app/Contents/Resources/video_audio_separator_batch.py:191 | the intended AAC path stays inside every directory that the WAV path lies at least four characters below |
| Separator.ReplaceFirstWav | VideoToolsApp/Products/VideoTools.app/Contents/Resources/video_audio_separator_batch.py:191 | `replace('.wav', '.aac')` on a path that starts with a '.'-free head and ".wav" turns that first ".wav" into ".aac" |
| Separator.RawPathAsWrittenLeavesDirectory | VideoToolsApp/Products/VideoTools.app/Contents/Resources/video_audio_separator_batch.py:191 | when the input directory contains ".wav", the raw copy's path as written is outside it, although the WAV file and the intended AAC path are inside |
| Separator.FirstAccepted | VideoToolsApp/Products/VideoTools.app/Contents/Resources/video_audio_separator_batch.py:182-188 | the conversion loop stops at the first accepted attempt; none before it was accepted |
| Separator.ExtractAudioStream | VideoToolsApp/Products/VideoTools.app/Contents/Resources/video_audio_separator_batch.py:166-211 | the audio loop returns the specified record and runs exactly the specified commands |
| Separator.AudioFallback | VideoToolsApp/Products/VideoTools.app/Contents/Resources/video_audio_separator_batch.py:182-211 | the WAV file exactly when a conversion was accepted; the AAC copy, at the path `replace('.wav', '.aac')` gives, with its warning exactly when none was and the raw copy was; otherwise "All audio extraction methods failed" |
| Separator.AudioCommandsOrder | VideoToolsApp/Products/VideoTools.app/Contents/Resources/video_audio_separator_batch.py:182-194 | the conversions run in their fixed order up to the first accepted one; the raw copy runs fourth exactly when all three failed, and writes to the path `replace('.wav', '.aac')` gives |
| Separator.AudioSucceeds | VideoToolsApp/Products/VideoTools.app/Contents/Resources/video_audio_separator_batch.py:182-211 | the audio record is a success exactly when a conversion or the raw copy was accepted |
| Separator.ProcessSingleFile | VideoToolsApp/Products/VideoTools.app/Contents/Resources/video_audio_separator_batch.py:214-259 | a file's processing returns the specified result and runs the specified commands, the video first |
| Separator.FileSuccess | VideoToolsApp/Products/VideoTools.app/Contents/Resources/video_audio_separator_batch.py:221-257 | a file succeeds exactly when it was probed, the video command exited 0, and it has no audio or some audio command was accepted |
| Separator.ProbedFileSuccess | VideoToolsApp/Products/VideoTools.app/Contents/Resources/video_audio_separator_batch.py:236-257 | for a probed file, the same in terms of its video run and audio attempts |
| Separator.FileRecords | VideoToolsApp/Products/VideoTools.app/Contents/Resources/video_audio_separator_batch.py:221-257 | a probed file's audio is "skipped" exactly when it has no audio stream, and its success is the video's success and the audio's success or skip; an unprobed file fails with "Failed to probe video" |
| Separator.AudioRecordSkipped | VideoToolsApp/Products/VideoTools.app/Contents/Resources/video_audio_separator_batch.py:246-252 | the audio record is the skip record exactly when the file has no audio stream |
| Separator.ProgressLabelReads | VideoToolsApp/Products/VideoTools.app/Contents/Resources/video_audio_separator_batch.py:348 | the progress text is the completed count, one '/', and the total, and reads back as the two counts |
| Separator.BuildTasks | VideoToolsApp/Products/VideoTools.app/Contents/Resources/video_audio_separator_batch.py:311-322 | the loop over the valid files builds one job per file, in order, each with its own sample rate |
| Separator.FinishFile | VideoToolsApp/Products/VideoTools.app/Contents/Resources/video_audio_separator_batch.py:330-360 | one step of the collection loop records the k-th finished file's result and event |
| Separator.CollectResults | VideoToolsApp/Products/VideoTools.app/Contents/Resources/video_audio_separator_batch.py:326-360 | the collection loop counts every file, and collects the results and one event per file, in completion order |
| Separator.ProcessTasks | VideoToolsApp/Products/VideoTools.app/Contents/Resources/video_audio_separator_batch.py:301-372 | START, then the per-file events in completion order, then COMPLETE with the results |
| Separator.RunBatch | VideoToolsApp/Products/VideoTools.app/Contents/Resources/video_audio_separator_batch.py:262-372 | the whole run prints the specified event sequence and returns the results in completion order |
| Separator.ResultsInCompletionOrder | VideoToolsApp/Products/VideoTools.app/Contents/Resources/video_audio_separator_batch.py:326-336 | the results list is the per-file results permuted by the completion order |
| Separator.CompleteCounts | VideoToolsApp/Products/VideoTools.app/Contents/Resources/video_audio_separator_batch.py:362-372 | COMPLETE's success count equals the count in input order; successful plus failed is the number of valid files |
| Separator.ProgressCounter | VideoToolsApp/Products/VideoTools.app/Contents/Resources/video_audio_separator_batch.py:330-357 | the k-th file to finish gets FILE_COMPLETE exactly when its result succeeded, with progress "k+1/n", or else FILE_ERROR with its error text, and names its file |
| Separator.FramedShape | VideoToolsApp/Products/VideoTools.app/Contents/Resources/video_audio_separator_batch.py:301-372 | after validation the run prints START first, COMPLETE last, and one line per file between them |
| Separator.MissingReportedFirst | VideoToolsApp/Products/VideoTools.app/Contents/Resources/video_audio_separator_batch.py:285-290 | the run begins with one "File not found" line per missing path, in order |
| Separator.NoValidFilesRun | VideoToolsApp/Products/VideoTools.app/Contents/Resources/video_audio_separator_batch.py:285-295 | with no valid file, the run is the not-found lines and "No valid files to process", with no START or COMPLETE |
| Separator.RunFrame | VideoToolsApp/Products/VideoTools.app/Contents/Resources/video_audio_separator_batch.py:285-372 | with a valid file, START comes right after the not-found lines and COMPLETE is last, neither appears anywhere else, and START's total is the number of valid files |
| Separator.TasksUseSampleRate | VideoToolsApp/Products/VideoTools.app/Contents/Resources/video_audio_separator_batch.py:311-322 | the k-th task is the k-th valid path with the sample rate chosen for its name, the batch's ffmpeg path and its encoder choice |

## Left out

- Splitter.ProbeVideo: the frame rate is an input. Parsing `avg_frame_rate` (default "30/1") with `float` on each side of '/' and the 30.0 fallbacks for a zero denominator or an empty string are not modelled. A malformed string raises ValueError inside the probe's `try` and arrives as a failed probe (`ProbeRaised`).
- Splitter.ProbeVideo: a report with no "format" object is folded into the missing-duration case. The source's ERROR text then ends in "'format'"; the model's ends in "'duration'".
- Separator.ProbeVideo: the same holds for its frame rate, and `str()` of it is an input too (`frameRateText`).
- Separator.ProbeVideo: the `audio_info` record is not modelled. Nothing reads it.
- Splitter.PlanFor: durations and lengths are exact reals. IEEE rounding of `duration / segment_duration` and of `i * segment_duration` is not modelled.
- Splitter.PlanFor: the divisions by zero and the pool of zero workers that make the source raise give no plan. What the caller of `run_batch` does with the exception is not part of this model.
- Splitter.ProcessVideoFile: the world is required to fit the plan, with parallel_jobs >= 1. When the plan is missing after a successful probe, or parallel_jobs <= 0 makes `ProcessPoolExecutor(max_workers=...)` raise ValueError, the source raises out of the batch after FILE_START; that exception and the run it ends are not modelled.
- Splitter.RunBatch: requires the same of every file's world, so a run with parallel_jobs <= 0 is not modelled; the source raises ValueError at the first file whose probe succeeds, after that file's PROGRESS and FILE_START lines.
- Separator.RunBatch: requires parallel_jobs >= 1 when some file is valid. With parallel_jobs <= 0 the source prints START and then `ProcessPoolExecutor(max_workers=parallel_jobs)` raises ValueError; that crashed run is not modelled.
- Splitter: SEGMENT_START is declared in the event list but never printed, so the model has no such event.
- Splitter.SplitSingleSegment: the ffmpeg command line of a segment is not modelled. Only its outcome is.
- Exception texts (`str(e)`) are inputs, not Python's own messages.
- Separator: the probe's ERROR line is left out. `probe_video` prints it from a pool worker, so it has no fixed place in the event stream.
- ffprobe's path (`ffmpeg_path.replace("ffmpeg", "ffprobe")`) is not modelled.
- `get_ffmpeg_path` and `check_videotoolbox_support` probe the machine, so their answers are parameters.
- Filesystem effects (`os.makedirs`, the files ffmpeg writes) are left out. `os.path.getsize` and `os.path.exists` come in as the size of each attempt's output.
- `os.path.isfile` is an input per path.
- `os.path.abspath` and `os.path.dirname` are left out: the directory of each file is an input.
- Concurrency is left out. The order in which `as_completed` yields results is an input: a permutation of the tasks.
- Reading the JSON job, `argv`, `main`, usage text and JSON encoding of events are left out. Events are datatypes.
- Splitter.ConfigOf and Separator.ConfigOf: JSON values are not type-checked. A present setting is assumed to have the expected type.

## Findings

| source | as written | input that shows it | evidently intended | confidence | as-written member | corrected member |
|---|---|---|---|---|---|---|
| VideoToolsApp/Products/VideoTools.app/Contents/Resources/video_audio_separator_batch.py:191 | `raw_output = output_file.replace('.wav', '.aac')` rewrites every ".wav" in the path, directories included | the file `/v.wav/clip.mp4`: the WAV output is `/v.wav/clip_separated/clip_audio.wav`, and the raw copy goes to `/v.aac/clip_separated/clip_audio.aac`, a directory that was never created | change only the extension, so the AAC file lies beside the WAV file | high; not executed | Separator.RawPathAsWrittenLeavesDirectory | Separator.RawAudioPathBeside |

The extraction itself (`Separator.ExtractAudioStream`, `Separator.AudioFallback`, `Separator.AudioCommandsOrder` and everything built on them) uses the path as written, `Separator.RawAudioPathAsWritten`. The intended path is `Separator.RawAudioPath`. `Separator.RawPathsAgree` shows that the two coincide whenever ".wav" occurs in the WAV path only as its extension.
