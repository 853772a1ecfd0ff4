/**
 * The exceptions the audio utilities raise. The first five are the
 * package's own error classes (their module, `errors`, is not part of this
 * model: each is taken to carry the offending format and path, as the
 * raising code passes them); the last two are Python built-ins.
 */
module AudioErrors {
  import opened Paths

  datatype AudioError =
    | FFmpegNotInstalled
    | FFmpegExecution
    | AudioFormatUnsupported(format: string, path: Path)
    | AudioDemuxing(format: string, path: Path)
    | AudioMuxing(format: string, path: Path)
      /** Python's FileNotFoundError. */
    | FileNotFound(path: Path)
      /** Python's ValueError, as raised by pathlib. */
    | ValueError(path: Path)
}
