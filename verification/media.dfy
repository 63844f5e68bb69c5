/**
 * What the two batch scripts share about running ffmpeg and ffprobe. The
 * tools themselves are not modelled: each run is an input that says what it
 * reported.
 */
module Media {
  import opened Wrappers

  /** What `subprocess.run` gave back for one ffmpeg command: exit code and standard error, or the exception it raised. */
  datatype RunOutcome = Exited(code: int, stderr: string) | Raised(message: string)

  predicate Succeeded(run: RunOutcome) {
    run.Exited? && run.code == 0
  }

  /** How much of ffmpeg's standard error a failed result keeps. */
  const StderrLimit: nat := 500

  /** `stderr[:500]`: the first 500 characters, or all of them when there are fewer. */
  function StderrExcerpt(stderr: string): (excerpt: string)
    ensures |excerpt| <= StderrLimit && |excerpt| <= |stderr| && excerpt == stderr[..|excerpt|]
    ensures |excerpt| == StderrLimit || excerpt == stderr
  {
    if |stderr| <= StderrLimit then stderr else stderr[..StderrLimit]
  }

  /** The error text of a failed run: the clipped standard error, or the text of the exception. */
  function FailureText(run: RunOutcome): string
    requires !Succeeded(run)
  {
    match run
    case Exited(_, stderr) => StderrExcerpt(stderr)
    case Raised(message) => message
  }

  const HardwareEncoder := "h264_videotoolbox"
  const SoftwareEncoder := "libx264"

  /** The H.264 encoder: VideoToolbox when ffmpeg offers it, else libx264. */
  function Encoder(useVideoToolbox: bool): (encoder: string)
    ensures encoder == HardwareEncoder <==> useVideoToolbox
    ensures encoder == SoftwareEncoder <==> !useVideoToolbox
  {
    if useVideoToolbox then HardwareEncoder else SoftwareEncoder
  }

  /** Bit rate assumed when neither the stream nor the container reports one: 2 Mbps. */
  const DefaultBitRate := 2_000_000

  /** The video bit rate: the stream's, else the container's, else 2 Mbps. */
  function BitRate(streamBitRate: Option<int>, formatBitRate: Option<int>): (bitRate: int)
    ensures streamBitRate.Some? ==> bitRate == streamBitRate.value
    ensures streamBitRate.None? && formatBitRate.Some? ==> bitRate == formatBitRate.value
    ensures streamBitRate.None? && formatBitRate.None? ==> bitRate == DefaultBitRate
  {
    match streamBitRate
    case Some(b) => b
    case None => formatBitRate.GetOr(DefaultBitRate)
  }

  /** The fields of ffprobe's first video stream; the frame rate is already the value of `avg_frame_rate`. */
  datatype VideoStream = VideoStream(
    bitRate: Option<int>, frameRate: real, width: int, height: int, codecName: Option<string>)

  /** The fields of ffprobe's first audio stream. */
  datatype AudioStream = AudioStream(sampleRate: Option<int>, channels: Option<int>, codecName: Option<string>)

  /**
   * What one ffprobe call reported: the first video and audio streams and the
   * container's bit rate and duration, or the text of the exception raised
   * (ffprobe failing, output that is not JSON, a missing mandatory field).
   */
  datatype ProbeRun =
    | ProbeRaised(message: string)
    | ProbeOutput(video: Option<VideoStream>, audio: Option<AudioStream>,
                  formatBitRate: Option<int>, formatDuration: Option<real>)
}
