/** The records of types/index.ts that the chat page keeps in its state. */
module Types {
  import opened Wrappers
  import opened Utils

  datatype Role = User | Assistant | System

  /**
   * A transcript entry. The source's optional `isTyping` is only ever read
   * for truthiness, so an absent flag is `false` here.
   */
  datatype Message = Message(role: Role, content: string, isTyping: bool)

  /**
   * A context entry sent back to the runtime. The page keeps its context
   * as messages that never carry the typing flag; this record is that
   * message without the flag.
   */
  datatype Turn = Turn(role: Role, content: string)

  /** Per-file download progress, passed through to the snapshot unchanged. */
  datatype ProgressFile = ProgressFile(
    id: string,
    name: string,
    status: string,
    percentComplete: int,
    bytesLoaded: Option<nat>,
    bytesTotal: Option<nat>,
    speed: Option<nat>,
    timeRemaining: Option<nat>)

  /**
   * Aggregate download figures with their display forms. `formattedSpeed`
   * carries the size part of "<size>/s"; a zero or missing speed shows as
   * "0 B/s", which is the zero size with the same suffix.
   */
  datatype ProgressOverall = ProgressOverall(
    bytesLoaded: nat,
    bytesTotal: nat,
    speed: nat,
    timeRemaining: nat,
    formattedLoaded: SizeText,
    formattedTotal: SizeText,
    formattedSpeed: SizeText,
    formattedRemaining: string)

  /** The progress snapshot shown in the status panel (`type` is called `kind`). */
  datatype Progress = Progress(
    status: string,
    kind: string,
    percentComplete: int,
    message: string,
    files: Option<seq<ProgressFile>>,
    overall: Option<ProgressOverall>)
}
