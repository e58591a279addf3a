/**
 * `GET /api/chat/load`: reads the log, cuts a log longer than the retention
 * ceiling down to its newest entries and writes that back, and answers with
 * the newest entries of what is left.
 */
module LoadRoute {
  import opened Optional
  import opened Slices
  import opened ChatDb

  /** Retention ceiling: the most entries the load handler leaves in the file. */
  const RetainedEntries: Window := 20

  /** Response window: the most entries one load returns. */
  const ResponseEntries: Window := 10

  const LoadErrorText := "Failed to load messages"

  /** The JSON body: the message array (status 200) or `{error}` with status 500. */
  datatype LoadResponse = Loaded(messages: seq<Message>) | LoadFailed(status: int, error: string)

  /** What one call leaves behind: its response and the file. */
  datatype LoadOutcome = LoadOutcome(response: LoadResponse, file: FileState)

  /**
   * The effect of one `GET`, given the file and how `fs.writeFileSync`
   * ends. Anything thrown inside the `try` turns into the 500 response.
   */
  function GetOutcome(file: FileState, write: WriteResult): LoadOutcome {
    match ReadLog(file)
    case None => LoadOutcome(LoadFailed(500, LoadErrorText), file)
    case Some(log) =>
      if |log| > RetainedEntries then
        if !write.Written? then LoadOutcome(LoadFailed(500, LoadErrorText), AfterFailedWrite(file, write))
        else
          var kept := Newest(log, RetainedEntries);
          LoadOutcome(Loaded(Newest(kept, ResponseEntries)), Stored(kept))
      else LoadOutcome(Loaded(Newest(log, ResponseEntries)), file)
  }

  /** The route handler itself, step by step over the shared file. */
  method Get(db: Database, write: WriteResult) returns (response: LoadResponse)
    modifies db
    ensures LoadOutcome(response, db.file) == GetOutcome(old(db.file), write)
  {
    var messages: seq<Message> := [];
    match db.file {
      case Unparsable =>
        return LoadFailed(500, LoadErrorText);
      case Absent =>
      case Stored(log) =>
        messages := log;
    }
    if |messages| > RetainedEntries {
      messages := Newest(messages, RetainedEntries);
      if !write.Written? {
        db.file := AfterFailedWrite(db.file, write);
        return LoadFailed(500, LoadErrorText);
      }
      db.file := Stored(messages);
    }
    var latestMessages := Newest(messages, ResponseEntries);
    return Loaded(latestMessages);
  }

  /** An absent file is the empty log: the answer is an empty list, not an error, and no file is written. */
  lemma AbsentFileLoadsEmpty(write: WriteResult)
    ensures GetOutcome(Absent, write) == LoadOutcome(Loaded([]), Absent)
  {
  }

  /**
   * A log within the ceiling is never rewritten, and a failing write cannot
   * matter: the answer is its newest 10 entries.
   */
  lemma ShortLogNotRewritten(log: seq<Message>, write: WriteResult)
    requires |log| <= RetainedEntries
    ensures GetOutcome(Stored(log), write) == LoadOutcome(Loaded(Newest(log, ResponseEntries)), Stored(log))
  {
  }

  /**
   * A log over the ceiling becomes exactly its newest 20 entries, in their
   * original order, and the answer is the newest 10 of the log as it was read:
   * `slice(-10)` after `slice(-20)` is `slice(-10)`.
   */
  lemma LongLogTrimmed(log: seq<Message>)
    requires |log| > RetainedEntries
    ensures GetOutcome(Stored(log), Written) ==
      LoadOutcome(Loaded(log[|log| - ResponseEntries..]), Stored(log[|log| - RetainedEntries..]))
  {
    NewestOfNewest(log, RetainedEntries, ResponseEntries);
  }

  /**
   * A successful answer holds min(10, length of the log) entries: the newest
   * ones of the log as it was read, which are also the newest ones of the log
   * left in the file, newest last.
   */
  lemma ResponseIsNewestWindow(file: FileState, write: WriteResult)
    requires GetOutcome(file, write).response.Loaded?
    ensures ReadLog(file).Some?
    ensures var r := GetOutcome(file, write).response.messages;
      var log := ReadLog(file).value;
      && |r| == Min(ResponseEntries, |log|)
      && r == log[|log| - |r|..]
      && ReadLog(GetOutcome(file, write).file).Some?
      && IsSuffix(r, ReadLog(GetOutcome(file, write).file).value)
  {
  }

  /** After any successful load the file holds at most 20 entries, the newest of what it held. */
  lemma StoredLogBounded(file: FileState, write: WriteResult)
    requires GetOutcome(file, write).response.Loaded?
    ensures var after := ReadLog(GetOutcome(file, write).file);
      && after.Some?
      && |after.value| <= RetainedEntries
      && IsSuffix(after.value, ReadLog(file).value)
  {
  }

  /**
   * Loading again with no send in between gives the same answer and leaves the
   * file as the first load left it, whether or not the second write would fail.
   */
  lemma LoadIdempotent(file: FileState, write1: WriteResult, write2: WriteResult)
    requires GetOutcome(file, write1).response.Loaded?
    ensures var first := GetOutcome(file, write1);
      GetOutcome(first.file, write2) == first
  {
  }

  /**
   * The load fails exactly when the file cannot be read or parsed, or when a
   * needed trim cannot be written back; it then answers 500. The file is left
   * as it was unless the trim's write failed after opening the file, which
   * leaves it unreadable.
   */
  lemma LoadFailsOnlyOnIoError(file: FileState, write: WriteResult)
    ensures var o := GetOutcome(file, write);
      && (o.response.LoadFailed? <==>
          file.Unparsable? || (file.Stored? && |file.log| > RetainedEntries && !write.Written?))
      && (o.response.LoadFailed? ==>
            && o.response == LoadFailed(500, LoadErrorText)
            && o.file == (if write.FailedPartway? then Unparsable else file))
  {
  }
}
