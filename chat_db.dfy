/**
 * The `chat.db` file that both API routes read and overwrite: a JSON array
 * of messages, seen here after the routes have tried to read and parse it.
 */
module ChatDb {
  import opened Optional

  /** The `Message` record the API routes store and return. */
  datatype Message = Message(id: int, text: string, from: string, time: string)

  /**
   * What `fs.existsSync` / `fs.readFileSync` / `JSON.parse` leave a route with:
   * no file, a file whose reading or parsing throws, or a parsed message log.
   */
  datatype FileState = Absent | Unparsable | Stored(log: seq<Message>)

  /** The log a route works on: an absent file is the empty log, a broken one is none. */
  function ReadLog(file: FileState): Option<seq<Message>> {
    match file
    case Absent => Some([])
    case Unparsable => None
    case Stored(log) => Some(log)
  }

  /**
   * How one `fs.writeFileSync(dbFile, …)` ends. The call opens the file with
   * flag "w", which empties it first: a write that fails before the file is
   * opened leaves it as it was, one that fails after that leaves a cut-off
   * JSON text that every later `JSON.parse` rejects.
   */
  datatype WriteResult = Written | FailedBeforeOpen | FailedPartway

  /** The file a write that throws leaves behind. */
  function AfterFailedWrite(file: FileState, write: WriteResult): FileState {
    if write.FailedPartway? then Unparsable else file
  }

  /** The one file shared by every request handler. */
  class Database {
    var file: FileState

    constructor (initial: FileState)
      ensures file == initial
    {
      file := initial;
    }
  }
}
