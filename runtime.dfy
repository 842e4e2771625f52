/**
 * What the in-browser model runtime hands to the chat page, as values
 * chosen up front: progress reports, and the result of a completion call
 * with its delivery shape already resolved.
 */
module Runtime {
  import opened Wrappers
  import opened Types

  datatype OverallUpdate = OverallUpdate(
    bytesLoaded: nat,
    bytesTotal: nat,
    speed: Option<nat>,
    timeRemaining: Option<nat>)

  /** A progress report; every field may be missing (`type` is called `kind`). */
  datatype ProgressUpdate = ProgressUpdate(
    status: Option<string>,
    kind: Option<string>,
    percentComplete: Option<int>,
    message: Option<string>,
    files: Option<seq<ProgressFile>>,
    overall: Option<OverallUpdate>)

  /** A streamed chunk, reduced to `chunk?.choices?.[0]?.delta?.content`. */
  datatype Chunk = Chunk(deltaContent: Option<string>)

  /** The chunks a pull-style stream yields, then, if reading fails, the error message. */
  datatype Stream = Stream(chunks: seq<Chunk>, failure: Option<string>)

  /**
   * The result of a completion call: a rejection, a push-style emitter, a
   * pull-style reader, an async iterable, or a plain object carrying
   * `choices[0].message.content`.
   */
  datatype Response =
    | Rejected(error: string)
    | Emitter
    | Reader(stream: Stream)
    | Iterable(stream: Stream)
    | Completion(content: Option<string>)
}
