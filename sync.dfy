/**
 * The client and the two routes together: how each answer reaches the
 * component's state, and what a run of sends followed by a load leaves.
 */
module Sync {
  import opened Optional
  import opened TimeFormat
  import opened Slices
  import opened ChatDb
  import opened LoadRoute
  import opened SendRoute
  import opened ChatClient

  /** A stored message as the poll puts it in the view: no status, audio or device id. */
  function FromServer(m: Message): ViewMessage {
    ViewMessage(m.id, Some(m.text), None, m.from, None, m.time, None)
  }

  function FromServerAll(list: seq<Message>): seq<ViewMessage> {
    seq(|list|, i requires 0 <= i < |list| => FromServer(list[i]))
  }

  /** What the poll's `res.ok` and `res.json()` make of a load answer. */
  function PollOf(response: LoadResponse): PollResult {
    match response
    case Loaded(list) => PollOk(FromServerAll(list))
    case LoadFailed(_, _) => PollNotOk
  }

  /**
   * What the send's `res.json()` makes of a send answer: every status carries
   * a JSON body, so each one is parsed, and only its `time` member is read.
   */
  function ReplyOf(response: SendResponse): SendResult {
    match response
    case Stamped(time) => Replied(Some(time))
    case MissingFields(_) => Replied(None)
    case ServerError(time, _) => Replied(Some(time))
  }

  /**
   * A 400 or a 500 still takes the client's success branch: a 500 confirms the
   * entry with `"00:00"`, a 400 with the local time; a 200 with the server's stamp.
   */
  lemma ErrorAnswersStillConfirm(response: SendResponse, now: LocalTime)
    requires response.ServerError? ==> response == ServerError(PlaceholderTime, ServerErrorText)
    requires response.Stamped? ==> response.time != ""
    ensures ReplyOf(response).Replied?
    ensures var t := ConfirmedTime(ReplyOf(response).time, now);
      && (StatusCode(response) == 500 ==> t == "00:00")
      && (StatusCode(response) == 400 ==> t == FormatTime(now))
      && (StatusCode(response) == 200 ==> t == response.time)
  {
  }

  /**
   * The 500 answer's placeholder settles the optimistic entry exactly as a
   * real send stamped at midnight would: the client cannot tell them apart.
   */
  lemma ServerErrorSettlesAsMidnight(view: seq<ViewMessage>, tempId: int, now: LocalTime)
    ensures Settled(view, tempId, ReplyOf(ServerError(PlaceholderTime, ServerErrorText)), now)
         == Settled(view, tempId, ReplyOf(Stamped(FormatTime(LocalTime(0, 0)))), now)
  {
    assert DigitChar(0) == '0';
    assert FormatTime(LocalTime(0, 0)) == PlaceholderTime;
  }

  /** What a send to an unreadable file answers: 400 for missing fields, 500 otherwise. */
  function LaterAnswer(req: SendRequest): SendResponse {
    if req.SendBody? && (Falsy(req.message) || Falsy(req.from)) then MissingFields(MissingFieldsText)
    else ServerError(PlaceholderTime, ServerErrorText)
  }

  /**
   * A write that fails after `fs.writeFileSync` has emptied the file, in
   * either route, leaves a file that no later call repairs: every later load
   * and every later valid send answers 500, a later send missing `message` or
   * `from` is still answered 400 since it is rejected before the file is read,
   * and the file stays unreadable.
   */
  lemma PartialWriteBreaksLog(log: seq<Message>, req: SendRequest, now: LocalTime, stamp: int,
                              laterWrite: WriteResult, laterReq: SendRequest, laterNow: LocalTime, laterStamp: int)
    requires IsValid(req)
    ensures var sent := PostOutcome(Stored(log), req, now, stamp, FailedPartway);
      && sent.response == ServerError(PlaceholderTime, ServerErrorText)
      && GetOutcome(sent.file, laterWrite) == LoadOutcome(LoadFailed(500, LoadErrorText), Unparsable)
      && PostOutcome(sent.file, laterReq, laterNow, laterStamp, laterWrite)
         == SendOutcome(LaterAnswer(laterReq), Unparsable)
    ensures |log| > RetainedEntries ==>
      var loaded := GetOutcome(Stored(log), FailedPartway);
      && loaded.response == LoadFailed(500, LoadErrorText)
      && GetOutcome(loaded.file, laterWrite) == loaded
      && PostOutcome(loaded.file, laterReq, laterNow, laterStamp, laterWrite)
         == SendOutcome(LaterAnswer(laterReq), Unparsable)
  {
  }

  /**
   * After a poll the view is exactly the server's window when the load
   * succeeded: at most 10 entries, none of them pending, since local entries
   * are not merged in. When the load failed the view is untouched.
   */
  lemma PollReplacesView(file: FileState, write: WriteResult, view: seq<ViewMessage>)
    ensures var o := GetOutcome(file, write);
      var after := Polled(view, PollOf(o.response));
      && (o.response.Loaded? ==>
            && after == FromServerAll(o.response.messages)
            && |after| <= ResponseEntries
            && forall i :: 0 <= i < |after| ==> after[i].status.None?)
      && (o.response.LoadFailed? ==> after == view)
  {
  }

  /**
   * A poll that lands between the two halves of a send drops the optimistic
   * entry; when the server's window holds no message with its temporary id,
   * settling the send then changes nothing, so the entry is gone from the view
   * until a later poll brings back the stored copy.
   */
  lemma PollBetweenHalvesDropsEntry(view: seq<ViewMessage>, temp: ViewMessage, list: seq<Message>,
                                    result: SendResult, now: LocalTime)
    requires forall i :: 0 <= i < |list| ==> list[i].id != temp.id
    ensures var polled := Polled(view + [temp], PollOk(FromServerAll(list)));
      && Settled(polled, temp.id, result, now) == FromServerAll(list)
      && forall i :: 0 <= i < |polled| ==> polled[i].status.None?
  {
  }

  /**
   * A send that goes through end to end: the server appends the record of the
   * entry's text and sender under its own `Date.now()` id and stamp, and the
   * client's optimistic entry, which keeps the client's `Date.now()` as its
   * id, is confirmed with that very stamp.
   */
  lemma SendRoundTrip(db: FileState, view: seq<ViewMessage>, text: string, deviceId: string,
                      clientStamp: int, serverStamp: int, now: LocalTime, clientNow: LocalTime)
    requires !db.Unparsable? && text != "" && deviceId != ""
    requires forall i :: 0 <= i < |view| ==> view[i].id != clientStamp
    ensures PostOutcome(db, SendBody(Some(text), Some(deviceId)), now, serverStamp, Written).file
      == Stored(ReadLog(db).value + [Message(serverStamp, text, deviceId, FormatTime(now))])
    ensures Settled(view + [TempMessage(text, clientStamp, deviceId)], clientStamp,
                    ReplyOf(PostOutcome(db, SendBody(Some(text), Some(deviceId)), now, serverStamp, Written).response),
                    clientNow)
      == view + [Confirm(TempMessage(text, clientStamp, deviceId), FormatTime(now))]
  {
    ValidSendOutcome(db, text, deviceId, now, serverStamp);
    assert ConfirmedTime(Some(FormatTime(now)), clientNow) == FormatTime(now) by {
      FormatTimeRoundTrip(now);
    }
    SettleChangesOnlyTempEntry(view, TempMessage(text, clientStamp, deviceId), Replied(Some(FormatTime(now))), clientNow);
  }

  /** One call of the send route in a run where every write goes through. */
  datatype SendCall = SendCall(text: string, from: string, now: LocalTime, stamp: int)

  function CallRecord(c: SendCall): Message {
    NewRecord(c.text, c.from, c.now, c.stamp)
  }

  function Records(calls: seq<SendCall>): (r: seq<Message>)
    ensures |r| == |calls|
  {
    seq(|calls|, i requires 0 <= i < |calls| => CallRecord(calls[i]))
  }

  /** Every call carries a non-empty text and sender. */
  predicate AllValid(calls: seq<SendCall>) {
    forall i :: 0 <= i < |calls| ==> calls[i].text != "" && calls[i].from != ""
  }

  /** The file after the calls, one after another. */
  function SendAll(file: FileState, calls: seq<SendCall>): FileState
    decreases |calls|
  {
    if calls == [] then file
    else
      var c := calls[0];
      SendAll(PostOutcome(file, SendBody(Some(c.text), Some(c.from)), c.now, c.stamp, Written).file, calls[1..])
  }

  lemma RecordsCons(calls: seq<SendCall>)
    requires calls != []
    ensures Records(calls) == [CallRecord(calls[0])] + Records(calls[1..])
  {
  }

  lemma AllValidTail(calls: seq<SendCall>)
    requires calls != [] && AllValid(calls)
    ensures calls[0].text != "" && calls[0].from != "" && AllValid(calls[1..])
  {
  }

  /** One valid send at the head of a run appends its record before the rest run. */
  lemma SendAllStep(file: FileState, calls: seq<SendCall>)
    requires !file.Unparsable? && calls != [] && AllValid(calls)
    ensures SendAll(file, calls) == SendAll(Stored(ReadLog(file).value + [CallRecord(calls[0])]), calls[1..])
  {
    var c := calls[0];
    ValidSendOutcome(file, c.text, c.from, c.now, c.stamp);
  }

  /** Appending one record and then the rest is appending the record followed by the rest. */
  lemma AppendRecordThenRest(log: seq<Message>, x: Message, rest: seq<Message>)
    ensures (log + [x]) + rest == log + ([x] + rest)
  {
  }

  /** Valid sends to a readable file append their records, in call order, with no trimming. */
  lemma {:induction false} SendAllAppends(file: FileState, calls: seq<SendCall>)
    requires file.Stored? || (file.Absent? && calls != [])
    requires AllValid(calls)
    ensures SendAll(file, calls) == Stored(ReadLog(file).value + Records(calls))
    decreases |calls|
  {
    if calls == [] {
      assert ReadLog(file).value + Records(calls) == ReadLog(file).value;
    } else {
      var log, x, rest := ReadLog(file).value, CallRecord(calls[0]), Records(calls[1..]);
      SendAllStep(file, calls);
      AllValidTail(calls);
      SendAllAppends(Stored(log + [x]), calls[1..]);
      RecordsCons(calls);
      AppendRecordThenRest(log, x, rest);
    }
  }

  /** From an absent file, a non-empty run of valid sends leaves exactly its records. */
  lemma SendAllFromAbsent(calls: seq<SendCall>)
    requires AllValid(calls) && calls != []
    ensures SendAll(Absent, calls) == Stored(Records(calls))
  {
    SendAllAppends(Absent, calls);
    assert [] + Records(calls) == Records(calls);
  }

  /** From an absent file, at most 20 valid sends and a load: all of them stay, the newest 10 come back. */
  lemma ShortRunThenLoad(calls: seq<SendCall>, write: WriteResult)
    requires AllValid(calls) && calls != [] && |calls| <= RetainedEntries
    ensures var records := Records(calls);
      GetOutcome(SendAll(Absent, calls), write)
        == LoadOutcome(Loaded(records[|records| - Min(ResponseEntries, |records|)..]), Stored(records))
  {
    var records := Records(calls);
    SendAllFromAbsent(calls);
    ShortLogNotRewritten(records, write);
  }

  /**
   * From an absent file, more than 20 valid sends and a load whose write goes
   * through: exactly the newest 20 records stay, oldest first, and the newest
   * 10 come back.
   */
  lemma LongRunThenLoad(calls: seq<SendCall>)
    requires AllValid(calls) && |calls| > RetainedEntries
    ensures var records := Records(calls);
      GetOutcome(SendAll(Absent, calls), Written)
        == LoadOutcome(Loaded(records[|records| - ResponseEntries..]),
                       Stored(records[|records| - RetainedEntries..]))
  {
    var records := Records(calls);
    assert SendAll(Absent, calls) == Stored(records) by {
      SendAllFromAbsent(calls);
    }
    LongLogTrimmed(records);
  }
}
