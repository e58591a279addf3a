/**
 * `POST /api/chat/send`: validates the body, stamps the message with the
 * server's `HH:MM`, appends it to the log, writes the whole log back and
 * answers with the stamp. It never trims: only the load handler does.
 */
module SendRoute {
  import opened Optional
  import opened TimeFormat
  import opened ChatDb

  const MissingFieldsText := "Missing message or sender"
  const ServerErrorText := "Server error"

  /** The placeholder stamp of the 500 answer. */
  const PlaceholderTime := "00:00"

  /**
   * The request body: either `req.json()` throws, or it yields an object whose
   * `message` and `from` members may be missing.
   */
  datatype SendRequest = UnparsableBody | SendBody(message: Option<string>, from: Option<string>)

  /** `{time}` (200), `{error}` (400), or `{time: "00:00", error}` (500). */
  datatype SendResponse =
    | Stamped(time: string)
    | MissingFields(error: string)
    | ServerError(time: string, error: string)

  function StatusCode(r: SendResponse): int {
    match r
    case Stamped(_) => 200
    case MissingFields(_) => 400
    case ServerError(_, _) => 500
  }

  /** JavaScript's `!v` on a member that is a string or missing. */
  predicate Falsy(v: Option<string>) {
    v.None? || v.value == ""
  }

  predicate IsValid(req: SendRequest) {
    req.SendBody? && !Falsy(req.message) && !Falsy(req.from)
  }

  /** The record the handler appends; `stamp` is the `Date.now()` it reads as the id. */
  function NewRecord(text: string, from: string, now: LocalTime, stamp: int): Message {
    Message(stamp, text, from, FormatTime(now))
  }

  datatype SendOutcome = SendOutcome(response: SendResponse, file: FileState)

  /**
   * The effect of one `POST`, given the file, the request, the clock, the
   * `Date.now()` id and how `fs.writeFileSync` ends.
   */
  function PostOutcome(file: FileState, req: SendRequest, now: LocalTime, stamp: int, write: WriteResult): SendOutcome {
    if req.UnparsableBody? then SendOutcome(ServerError(PlaceholderTime, ServerErrorText), file)
    else if Falsy(req.message) || Falsy(req.from) then SendOutcome(MissingFields(MissingFieldsText), file)
    else
      match ReadLog(file)
      case None => SendOutcome(ServerError(PlaceholderTime, ServerErrorText), file)
      case Some(log) =>
        if !write.Written? then SendOutcome(ServerError(PlaceholderTime, ServerErrorText), AfterFailedWrite(file, write))
        else
          var record := NewRecord(req.message.value, req.from.value, now, stamp);
          SendOutcome(Stamped(record.time), Stored(log + [record]))
  }

  /** The route handler itself: a read-modify-write of the shared file. */
  method Post(db: Database, req: SendRequest, now: LocalTime, stamp: int, write: WriteResult)
    returns (response: SendResponse)
    modifies db
    ensures SendOutcome(response, db.file) == PostOutcome(old(db.file), req, now, stamp, write)
  {
    if req.UnparsableBody? {
      return ServerError(PlaceholderTime, ServerErrorText);
    }
    var text, from := req.message, req.from;
    if Falsy(text) || Falsy(from) {
      return MissingFields(MissingFieldsText);
    }
    var timeString := FormatTime(now);
    var userMessage := Message(stamp, text.value, from.value, timeString);
    var messages: seq<Message> := [];
    match db.file {
      case Unparsable =>
        return ServerError(PlaceholderTime, ServerErrorText);
      case Absent =>
      case Stored(log) =>
        messages := log;
    }
    messages := messages + [userMessage];
    if !write.Written? {
      db.file := AfterFailedWrite(db.file, write);
      return ServerError(PlaceholderTime, ServerErrorText);
    }
    db.file := Stored(messages);
    return Stamped(timeString);
  }

  /**
   * A missing or empty `message` or `from` is answered 400 and the file is not
   * touched; it is the only way to get a 400.
   */
  lemma MissingFieldsRejected(file: FileState, req: SendRequest, now: LocalTime, stamp: int, write: WriteResult)
    ensures var o := PostOutcome(file, req, now, stamp, write);
      && (StatusCode(o.response) == 400 <==> req.SendBody? && (Falsy(req.message) || Falsy(req.from)))
      && (StatusCode(o.response) == 400 ==> o.response == MissingFields(MissingFieldsText) && o.file == file)
  {
  }

  /**
   * A send succeeds exactly when the body is valid, the file readable and the
   * write goes through. Then the log grows by one record at the end, with no
   * cap and every earlier record left alone. That record carries the request's
   * text and sender and a well formed stamp, and the answer is that stamp.
   */
  lemma SendAppendsOne(file: FileState, req: SendRequest, now: LocalTime, stamp: int, write: WriteResult)
    ensures var o := PostOutcome(file, req, now, stamp, write);
      o.response.Stamped? <==> IsValid(req) && !file.Unparsable? && write.Written?
    ensures var o := PostOutcome(file, req, now, stamp, write);
      o.response.Stamped? ==>
        var before := ReadLog(file).value;
        && o.file.Stored?
        && |o.file.log| == |before| + 1
        && o.file.log[..|before|] == before
        && var last := o.file.log[|before|];
        && last.id == stamp
        && last.text == req.message.value
        && last.from == req.from.value
        && last.time == o.response.time
        && IsClockString(o.response.time)
  {
    var o := PostOutcome(file, req, now, stamp, write);
    if o.response.Stamped? {
      FormatTimeRoundTrip(now);
      assert o.file.log[..|ReadLog(file).value|] == ReadLog(file).value;
    }
  }

  /** A valid send to a readable file whose write goes through, spelled out. */
  lemma ValidSendOutcome(file: FileState, text: string, from: string, now: LocalTime, stamp: int)
    requires !file.Unparsable? && text != "" && from != ""
    ensures PostOutcome(file, SendBody(Some(text), Some(from)), now, stamp, Written)
      == SendOutcome(Stamped(FormatTime(now)), Stored(ReadLog(file).value + [Message(stamp, text, from, FormatTime(now))]))
  {
  }

  /** The first send to an absent file creates a log of exactly that one record. */
  lemma FirstSendCreatesLog(req: SendRequest, now: LocalTime, stamp: int)
    requires IsValid(req)
    ensures PostOutcome(Absent, req, now, stamp, Written)
      == SendOutcome(Stamped(FormatTime(now)), Stored([NewRecord(req.message.value, req.from.value, now, stamp)]))
  {
    assert ReadLog(Absent) == Some([]);
    assert [] + [NewRecord(req.message.value, req.from.value, now, stamp)]
      == [NewRecord(req.message.value, req.from.value, now, stamp)];
  }

  /**
   * Every failure other than validation answers 500 with the `"00:00"`
   * placeholder. The file is left as it was, except that a valid send whose
   * write fails after opening the file leaves it unreadable.
   */
  lemma ServerErrorShape(file: FileState, req: SendRequest, now: LocalTime, stamp: int, write: WriteResult)
    ensures var o := PostOutcome(file, req, now, stamp, write);
      StatusCode(o.response) == 500 ==>
        && o.response == ServerError(PlaceholderTime, ServerErrorText)
        && IsClockString(o.response.time)
        && o.file == (if write.FailedPartway? && IsValid(req) then Unparsable else file)
  {
  }
}
