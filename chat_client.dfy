/**
 * The chat component's state (`ChatbotUI`): the message view with its
 * optimistic entries, the pin, the input box, the in-flight flag and the
 * device id kept in the browser's local storage.
 */
module ChatClient {
  import opened Optional
  import opened TimeFormat

  datatype Status = Sending | Sent | Failed

  /** The component's `Message`: optional members are `Option`s. */
  datatype ViewMessage = ViewMessage(
    id: int,
    text: Option<string>,
    audioUrl: Option<string>,
    from: string,
    status: Option<Status>,
    time: string,
    deviceId: Option<string>)

  /** The local-storage key the device id lives under. */
  const DeviceIdKey := "chatDeviceId"

  /** What a failed send appends to the entry's text. */
  const FailedSuffix := " (failed)"

  /** The characters `String.prototype.trim` removes: ECMAScript white space and line terminators. */
  predicate IsJsWhitespace(c: char) {
    var n := c as int;
    n == 0x09 || n == 0x0A || n == 0x0B || n == 0x0C || n == 0x0D || n == 0x20 || n == 0xA0 ||
    n == 0x1680 || (0x2000 <= n <= 0x200A) || n == 0x2028 || n == 0x2029 || n == 0x202F ||
    n == 0x205F || n == 0x3000 || n == 0xFEFF
  }

  /** `!text.trim()`: nothing but white space is left. */
  predicate IsBlank(s: string) {
    forall i :: 0 <= i < |s| ==> IsJsWhitespace(s[i])
  }

  /** The optimistic entry; `stamp` is the `Date.now()` it uses as its temporary id. */
  function TempMessage(text: string, stamp: int, deviceId: string): ViewMessage {
    ViewMessage(stamp, Some(text), None, deviceId, Some(Sending), "", Some(deviceId))
  }

  /** `msg.text + " (failed)"`, where a missing text concatenates as `"undefined"`. */
  function FailedText(text: Option<string>): string {
    (if text.Some? then text.value else "undefined") + FailedSuffix
  }

  /** `data.time || getCurrentTime()`: the server's stamp unless it is missing or empty. */
  function ConfirmedTime(replyTime: Option<string>, now: LocalTime): string {
    if replyTime.Some? && replyTime.value != "" then replyTime.value else FormatTime(now)
  }

  /** The entry after a parsed answer, when its id matches. */
  function Confirm(m: ViewMessage, time: string): ViewMessage {
    m.(status := Some(Sent), time := time)
  }

  /** The entry after a thrown error, when its id matches. */
  function Fail(m: ViewMessage): ViewMessage {
    m.(status := Some(Failed), text := Some(FailedText(m.text)))
  }

  /** The `prev.map` of a parsed answer: every entry with the temporary id is confirmed with `time`. */
  function MarkSent(view: seq<ViewMessage>, tempId: int, time: string): (r: seq<ViewMessage>)
    ensures |r| == |view|
    ensures forall i :: 0 <= i < |view| && view[i].id != tempId ==> r[i] == view[i]
    ensures forall i :: 0 <= i < |view| && view[i].id == tempId ==>
      r[i].status == Some(Sent) && r[i].time == time &&
      r[i].id == view[i].id && r[i].text == view[i].text && r[i].from == view[i].from &&
      r[i].audioUrl == view[i].audioUrl && r[i].deviceId == view[i].deviceId
    decreases |view|
  {
    if view == [] then []
    else
      var last := view[|view| - 1];
      MarkSent(view[..|view| - 1], tempId, time) + [if last.id == tempId then Confirm(last, time) else last]
  }

  /** The `prev.map` of a thrown error: every entry with the temporary id is marked failed, not removed. */
  function MarkFailed(view: seq<ViewMessage>, tempId: int): (r: seq<ViewMessage>)
    ensures |r| == |view|
    ensures forall i :: 0 <= i < |view| && view[i].id != tempId ==> r[i] == view[i]
    ensures forall i :: 0 <= i < |view| && view[i].id == tempId ==>
      r[i].status == Some(Failed) && r[i].text == Some(FailedText(view[i].text)) &&
      r[i].id == view[i].id && r[i].time == view[i].time && r[i].from == view[i].from &&
      r[i].audioUrl == view[i].audioUrl && r[i].deviceId == view[i].deviceId
    decreases |view|
  {
    if view == [] then []
    else
      var last := view[|view| - 1];
      MarkFailed(view[..|view| - 1], tempId) + [if last.id == tempId then Fail(last) else last]
  }

  /** How the `fetch` of a send ended: its JSON body was parsed (whatever the status), or something threw. */
  datatype SendResult = Replied(time: Option<string>) | Threw

  /** The view once the send's `fetch` has ended. */
  function Settled(view: seq<ViewMessage>, tempId: int, result: SendResult, now: LocalTime): seq<ViewMessage> {
    match result
    case Replied(time) => MarkSent(view, tempId, ConfirmedTime(time, now))
    case Threw => MarkFailed(view, tempId)
  }

  /** `prev?.id === msg.id ? null : msg`. */
  function TogglePin(prev: Option<ViewMessage>, m: ViewMessage): Option<ViewMessage> {
    if prev.Some? && prev.value.id == m.id then None else Some(m)
  }

  /** How a poll's `fetch` ended: an ok answer with its list, a non-ok status, or a throw. */
  datatype PollResult = PollOk(list: seq<ViewMessage>) | PollNotOk | PollThrew

  /** The view after one poll: an ok answer overwrites it wholesale, with no merge of local entries. */
  function Polled(view: seq<ViewMessage>, result: PollResult): seq<ViewMessage> {
    if result.PollOk? then result.list else view
  }

  /** The id already kept in local storage, if any; an empty one counts as none (`!id`). */
  function StoredDeviceId(items: map<string, string>): Option<string> {
    if DeviceIdKey in items && items[DeviceIdKey] != "" then Some(items[DeviceIdKey]) else None
  }

  /** The device id the mount effect settles on, given local storage and a freshly drawn uuid. */
  function DeviceIdAfter(items: map<string, string>, uuid: string): string {
    match StoredDeviceId(items)
    case Some(id) => id
    case None => uuid
  }

  /** Local storage after the mount effect. */
  function StorageAfter(items: map<string, string>, uuid: string): map<string, string> {
    if StoredDeviceId(items).Some? then items else items[DeviceIdKey := uuid]
  }

  /** The browser's `localStorage`. */
  class DeviceStorage {
    var items: map<string, string>

    constructor (initial: map<string, string>)
      ensures items == initial
    {
      items := initial;
    }
  }

  class ChatbotUI {
    var messages: seq<ViewMessage>
    var pinnedMessage: Option<ViewMessage>
    var input: string
    var isSending: bool
    var deviceId: string
    var userPing: Option<int>

    /** The `useState` initial values. */
    constructor ()
      ensures messages == [] && pinnedMessage == None && input == ""
      ensures !isSending && deviceId == "" && userPing == None
    {
      messages := [];
      pinnedMessage := None;
      input := "";
      isSending := false;
      deviceId := "";
      userPing := None;
    }

    /** The mount effect: reuse the stored device id, or store and use the fresh `uuid`. */
    method InitDeviceId(storage: DeviceStorage, uuid: string)
      modifies this`deviceId, storage`items
      ensures deviceId == DeviceIdAfter(old(storage.items), uuid)
      ensures storage.items == StorageAfter(old(storage.items), uuid)
    {
      var id: Option<string> := if DeviceIdKey in storage.items then Some(storage.items[DeviceIdKey]) else None;
      if id.None? || id.value == "" {
        id := Some(uuid);
        storage.items := storage.items[DeviceIdKey := uuid];
      }
      deviceId := id.value;
    }

    /** The guard of `sendTextMessage`. */
    predicate CanSubmit(text: string)
      reads this
    {
      !IsBlank(text) && !isSending && deviceId != ""
    }

    /**
     * The first half of `sendTextMessage`, up to the `await`: unless the guard
     * refuses, append the optimistic entry, clear the input and mark a send
     * in flight. Answers the temporary id when the send goes ahead.
     */
    method SubmitText(text: string, stamp: int) returns (tempId: Option<int>)
      modifies this`messages, this`input, this`isSending
      ensures tempId.Some? <==> old(CanSubmit(text))
      ensures old(CanSubmit(text)) ==>
        && tempId == Some(stamp)
        && messages == old(messages) + [TempMessage(text, stamp, deviceId)]
        && input == "" && isSending
      ensures !old(CanSubmit(text)) ==>
        messages == old(messages) && input == old(input) && isSending == old(isSending)
    {
      if IsBlank(text) || isSending || deviceId == "" {
        return None;
      }
      var tempMessage := TempMessage(text, stamp, deviceId);
      messages := messages + [tempMessage];
      input := "";
      isSending := true;
      return Some(tempMessage.id);
    }

    /** The second half of `sendTextMessage`: update the entries by temporary id, then clear the flag. */
    method SettleSend(tempId: int, result: SendResult, now: LocalTime)
      modifies this`messages, this`isSending
      ensures messages == Settled(old(messages), tempId, result, now)
      ensures !isSending
    {
      match result {
        case Replied(time) =>
          messages := MarkSent(messages, tempId, ConfirmedTime(time, now));
        case Threw =>
          messages := MarkFailed(messages, tempId);
      }
      isSending := false;
    }

    /** `sendTextMessage` run to completion with nothing in between its two halves. */
    method SendTextMessage(text: string, stamp: int, result: SendResult, now: LocalTime)
      modifies this`messages, this`input, this`isSending
      ensures old(CanSubmit(text)) ==>
        && messages == Settled(old(messages) + [TempMessage(text, stamp, deviceId)], stamp, result, now)
        && input == "" && !isSending
      ensures !old(CanSubmit(text)) ==>
        messages == old(messages) && input == old(input) && isSending == old(isSending)
    {
      var tempId := SubmitText(text, stamp);
      if tempId.Some? {
        SettleSend(tempId.value, result, now);
      }
    }

    /** One run of `loadMessages`: an ok answer replaces the whole view; anything else leaves it. */
    method LoadMessages(result: PollResult, ping: int)
      modifies this`messages, this`userPing
      ensures messages == Polled(old(messages), result)
      ensures userPing == (if result.PollOk? then Some(ping) else old(userPing))
    {
      if result.PollOk? {
        messages := result.list;
        userPing := Some(ping);
      }
    }

    /** `pinMessage`: pin `m`, or unpin when the pinned entry has `m`'s id. */
    method PinMessage(m: ViewMessage)
      modifies this`pinnedMessage
      ensures pinnedMessage == TogglePin(old(pinnedMessage), m)
    {
      if pinnedMessage.Some? && pinnedMessage.value.id == m.id {
        pinnedMessage := None;
      } else {
        pinnedMessage := Some(m);
      }
    }

    /** The unpin button of the pinned banner. */
    method Unpin()
      modifies this`pinnedMessage
      ensures pinnedMessage == None
    {
      pinnedMessage := None;
    }
  }

  /**
   * When no earlier entry shares the optimistic entry's id, settling the send
   * changes that last entry alone: confirmed with the answer's (or the local)
   * stamp, or marked failed with the suffix on its text; it is never removed.
   */
  lemma SettleChangesOnlyTempEntry(view: seq<ViewMessage>, temp: ViewMessage, result: SendResult, now: LocalTime)
    requires forall i :: 0 <= i < |view| ==> view[i].id != temp.id
    ensures Settled(view + [temp], temp.id, result, now) ==
      view + [match result
              case Replied(time) => Confirm(temp, ConfirmedTime(time, now))
              case Threw => Fail(temp)]
  {
  }

  /** Settling for an id no entry carries leaves the view exactly as it was. */
  lemma SettleWithoutMatchIsIdentity(view: seq<ViewMessage>, tempId: int, result: SendResult, now: LocalTime)
    requires forall i :: 0 <= i < |view| ==> view[i].id != tempId
    ensures Settled(view, tempId, result, now) == view
  {
  }

  /**
   * The stamp a confirmed entry shows is an `HH:MM` stamp whenever the server
   * sent one or sent none: the local `getCurrentTime()` fills in for a missing
   * or empty one.
   */
  lemma ConfirmedTimeIsClockString(replyTime: Option<string>, now: LocalTime)
    requires replyTime.Some? ==> replyTime.value == "" || IsClockString(replyTime.value)
    ensures IsClockString(ConfirmedTime(replyTime, now))
    ensures (replyTime.None? || replyTime.value == "") ==> ConfirmedTime(replyTime, now) == FormatTime(now)
  {
    FormatTimeRoundTrip(now);
  }

  /**
   * Pinning the same message twice returns to the first state's absence of a
   * pin, unless that message was already pinned, in which case it ends up pinned.
   */
  lemma PinTwice(prev: Option<ViewMessage>, m: ViewMessage)
    ensures TogglePin(TogglePin(prev, m), m) ==
      if prev.Some? && prev.value.id == m.id then Some(m) else None
    ensures TogglePin(TogglePin(None, m), m) == None
  {
  }

  /** Pinning selects `m` unless an entry with its id is pinned, which it clears. */
  lemma PinSelectsOrClears(prev: Option<ViewMessage>, m: ViewMessage)
    ensures TogglePin(prev, m).Some? <==> !(prev.Some? && prev.value.id == m.id)
    ensures TogglePin(prev, m).Some? ==> TogglePin(prev, m).value == m
  {
  }

  /**
   * A stored id is reused untouched; otherwise the fresh one is stored and
   * used. A second mount then finds the first one's id and keeps it.
   */
  lemma DeviceIdStable(items: map<string, string>, uuid1: string, uuid2: string)
    requires uuid1 != ""
    ensures StoredDeviceId(items).Some? ==>
      DeviceIdAfter(items, uuid1) == items[DeviceIdKey] && StorageAfter(items, uuid1) == items
    ensures StoredDeviceId(items).None? ==>
      DeviceIdAfter(items, uuid1) == uuid1 && StorageAfter(items, uuid1) == items[DeviceIdKey := uuid1]
    ensures DeviceIdAfter(items, uuid1) != ""
    ensures var after := StorageAfter(items, uuid1);
      DeviceIdAfter(after, uuid2) == DeviceIdAfter(items, uuid1) && StorageAfter(after, uuid2) == after
  {
  }
}
