/**
 * The files the pipeline reads and writes, as a map from path to contents,
 * and the errors a caller can see.
 */
module FileSystem {
  import opened JsonModel

  /** A file holds a JSON document, or bytes that do not parse as one (audio, a truncated write). */
  datatype FileBody = JsonText(doc: Json) | Unparseable

  type Files = map<string, FileBody>

  /**
   * `FileNotFound`: `FileNotFoundError` from `load_json`. `AudioNotFound`: the
   * one `get_audio_path` raises. `Malformed`: a file that is not JSON, or a
   * document without the fields the model reads. `Raised`: an exception from
   * an external model or service, with its message.
   */
  datatype Error =
    | FileNotFound(path: string)
    | AudioNotFound(meetingId: string)
    | Malformed(path: string)
    | Raised(message: string)
}
