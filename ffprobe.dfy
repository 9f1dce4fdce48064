/**
 * What the planner reads from ffprobe's output (ffprobe.go): the fields of one
 * stream it consults, and the three questions it asks of the probed container.
 */
module FFprobe {
  import opened Wrappers
  import opened GoLib

  /**
   * One elementary stream. `height` is absent for streams without a picture;
   * `bitRate` and `rFrameRate` are kept as the text ffprobe printed, because
   * the planner parses them itself and must cope with malformed values.
   */
  datatype Stream = Stream(
    codecName: string,
    height: Option<int64>,
    bitRate: string,
    rFrameRate: string)

  /**
   * A probed container, given by the answers of `IsVideo()`, `Video()` and
   * `Audio()`.
   */
  datatype StreamFormat = StreamFormat(
    isVideo: bool,
    video: Option<Stream>,
    audio: Option<Stream>)
}
