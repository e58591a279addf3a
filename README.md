# Chat message store and client synchronisation, in Dafny

A model of the three files of the simplechat app that hold logic:

- `GET /api/chat/load` reads the message log in `chat.db`. An absent file counts as the empty log. A log longer than 20 entries is cut to its newest 20, and that cut log is written back. The answer is the newest 10 entries.
- `POST /api/chat/send` validates `message` and `from`. It stamps the new record with the server's zero-padded `HH:MM` and appends it to the log. It writes the whole log back and answers `{time}`. It never trims the log.
- The chat component (`ChatbotUI`) keeps the message view, the pinned message, the input box, the "send in flight" flag, the last ping and the device id. It appends an optimistic `sending` entry. It then confirms that entry by its temporary id as `sent`, or marks it `failed`. A poll overwrites the whole view. Pinning toggles. The device id is taken from local storage, or created and stored there.

Modules, one per source file or shared concept:

| file | module | models |
|---|---|---|
| `optional.dfy` | `Optional` | missing values (a `null` pin, an absent local-storage item, a JSON member left out, an unreadable log) |
| `time_format.dfy` | `TimeFormat` | `toString().padStart(2, "0")` and the `HH:MM` stamp, with its parser as the inverse |
| `slices.dfy` | `Slices` | `Array.prototype.slice(-n)` |
| `chat_db.dfy` | `ChatDb` | the server `Message` record and the shared `chat.db` file (a `Database` object whose `file` field the handlers overwrite) |
| `load_route.dfy` | `LoadRoute` | `src/app/api/chat/load/route.ts` |
| `send_route.dfy` | `SendRoute` | `src/app/api/chat/send/route.ts` |
| `chat_client.dfy` | `ChatClient` | `src/components/base.tsx` (class `ChatbotUI`, class `DeviceStorage` for `localStorage`) |
| `sync.dfy` | `Sync` | how the two routes' answers reach the component's state, and runs of sends followed by a load |

Both route handlers are methods over the shared `Database` object. Each is proved equal to a specification function (`GetOutcome`, `PostOutcome`) of the old file and its inputs. The lemmas state the properties of those functions. The component is a class. Its methods are proved against pure functions: `MarkSent`, `MarkFailed`, `Settled`, `TogglePin`, `Polled`, `DeviceIdAfter` and `StorageAfter`.

Where the code does something a reader might not expect, the model follows the code:

- Only the load handler trims the log. The send handler appends with no cap, so the stored log can grow past 20 between loads.
- A poll overwrites the view wholesale. It does not merge in pending local entries. `Sync.PollBetweenHalvesDropsEntry` shows the resulting loss of an optimistic entry.
- Ids are the `Date.now()` of the server, or of the client for a temporary entry. They are not store-assigned sequence numbers. No uniqueness or ordering of ids is claimed.
- A 500 answer from the send route is parsed like any other answer. The entry is therefore marked `sent` with stamp `"00:00"`, not `failed`.

Inputs that the code takes from its environment are parameters:

- the clock reading (`LocalTime`);
- the `Date.now()` stamps;
- the fresh `uuidv4()` value;
- the measured ping;
- how `fs.writeFileSync` ends (`WriteResult`): it succeeds, it throws before opening the file, or it throws after its `"w"` flag has emptied the file;
- how a `fetch` ended (`SendResult`, `PollResult`).

## Model

| member | source | states |
|---|---|---|
| `TimeFormat.DecimalRoundTrip` | src/app/api/chat/send/route.ts:27-28 | the decimal text `toString()` gives for an hour or minute reads back as that number |
| `TimeFormat.TwoDigitsRoundTrip` | src/app/api/chat/send/route.ts:27-28 | below 100, `padStart(2, "0")` of the decimal text is exactly two digits and reads back as the number |
| `TimeFormat.FormatTimeRoundTrip` | src/app/api/chat/send/route.ts:26-29 | for every hour 0–23 and minute 0–59, the stamp is two digits, `:`, two digits, and parses back to that hour and minute |
| `TimeFormat.FormatTimeInjective` | src/app/api/chat/send/route.ts:26-29 | distinct clock readings give distinct stamps |
| `Slices.Newest` | src/app/api/chat/load/route.ts:26 | `slice(-n)` returns min(n, length) entries and they are the tail of the input, order kept |
| `Slices.NewestOfNewest` | src/app/api/chat/load/route.ts:23-26 | `slice(-10)` of `slice(-20)` equals `slice(-10)` of the original log |
| `Slices.NewestIdempotent` | src/app/api/chat/load/route.ts:26 | cutting a window to its own size again changes nothing |
| `LoadRoute.Get` | src/app/api/chat/load/route.ts:14-33 | the handler's answer and the file it leaves are exactly `GetOutcome` of the old file |
| `LoadRoute.AbsentFileLoadsEmpty` | src/app/api/chat/load/route.ts:16-20 | an absent file answers an empty list, not an error, and no file is written |
| `LoadRoute.ShortLogNotRewritten` | src/app/api/chat/load/route.ts:22-26 | a log of at most 20 entries is left in the file as it was (even if a write would fail), and the answer is its newest 10 |
| `LoadRoute.LongLogTrimmed` | src/app/api/chat/load/route.ts:22-26 | a log over 20 entries becomes exactly its last 20 in order, and the answer is the last 10 of the untrimmed log |
| `LoadRoute.ResponseIsNewestWindow` | src/app/api/chat/load/route.ts:22-28 | a successful answer has min(10, log length) entries, is the tail of the log as read, and is a suffix of the log left in the file |
| `LoadRoute.StoredLogBounded` | src/app/api/chat/load/route.ts:22-24 | after a successful load the file holds at most 20 entries, a suffix of what it held |
| `LoadRoute.LoadIdempotent` | src/app/api/chat/load/route.ts:14-28 | a second load with no send in between answers the same and leaves the file as the first left it |
| `LoadRoute.LoadFailsOnlyOnIoError` | src/app/api/chat/load/route.ts:14-32 | the load answers 500 `{error}` exactly when reading/parsing throws or a needed write-back throws; the file is then unchanged, except that a write-back failing after it emptied the file leaves it unreadable |
| `SendRoute.Post` | src/app/api/chat/send/route.ts:14-57 | the handler's answer and the file it leaves are exactly `PostOutcome` of the old file and the request |
| `SendRoute.MissingFieldsRejected` | src/app/api/chat/send/route.ts:21-23 | a 400 happens exactly when `message` or `from` is missing or empty; it carries `{error}` and the file is untouched |
| `SendRoute.ValidSendOutcome` | src/app/api/chat/send/route.ts:26-53 | a valid send to a readable file with a working write answers the stamp and stores the old log plus the new record |
| `SendRoute.SendAppendsOne` | src/app/api/chat/send/route.ts:32-53 | success happens exactly for a valid body, a readable file and a working write; then the log grows by exactly one record at the end with no cap, earlier records unchanged; the record has the request's text and sender and the `Date.now()` id; the returned time is that record's well-formed stamp |
| `SendRoute.FirstSendCreatesLog` | src/app/api/chat/send/route.ts:40-50 | the first send to an absent file leaves a log of exactly that one record |
| `SendRoute.ServerErrorShape` | src/app/api/chat/send/route.ts:54-56 | every 500 is `{time: "00:00", error}` and its time is a well-formed stamp; the file is unchanged, except that a valid send whose write fails after emptying the file leaves it unreadable |
| `ChatClient.MarkSent` | src/components/base.tsx:93-97 | the view keeps its length; entries with other ids are unchanged; entries with the temporary id become `sent` with the given time and keep everything else |
| `ChatClient.MarkFailed` | src/components/base.tsx:99-103 | the view keeps its length (nothing is removed); entries with other ids are unchanged; entries with the temporary id become `failed` with ` (failed)` appended to their text |
| `ChatClient.SettleChangesOnlyTempEntry` | src/components/base.tsx:80-103 | when no earlier entry shares the temporary id, settling changes only the appended entry: confirmed with the answer's time, or failed with the suffix |
| `ChatClient.SettleWithoutMatchIsIdentity` | src/components/base.tsx:93-103 | settling for an id no entry carries leaves the view as it was |
| `ChatClient.ConfirmedTimeIsClockString` | src/components/base.tsx:36-42 | a missing or empty server time is replaced by the local `getCurrentTime()` stamp, so the confirmed time is a well-formed `HH:MM` |
| `ChatClient.PinTwice` | src/components/base.tsx:112-114 | pinning the same message twice from no pin, or from a pin of another id, leaves no pin; starting from a pin with its id, it leaves that message pinned |
| `ChatClient.PinSelectsOrClears` | src/components/base.tsx:112-114 | the pin is cleared exactly when the current pin has the message's id, and otherwise becomes that message |
| `ChatClient.DeviceIdStable` | src/components/base.tsx:27-34 | a stored non-empty id is reused and storage untouched; otherwise the fresh id is stored and used; a second run returns the same id and leaves storage as is |
| `ChatClient.ChatbotUI.constructor` | src/components/base.tsx:19-25 | the initial state: empty view, no pin, empty input, no send in flight, no device id, no ping |
| `ChatClient.ChatbotUI.InitDeviceId` | src/components/base.tsx:27-34 | the device id and local storage become `DeviceIdAfter` / `StorageAfter` of the old storage |
| `ChatClient.ChatbotUI.SubmitText` | src/components/base.tsx:78-83 | a blank text, a send in flight or an empty device id leaves view, input and flag unchanged; otherwise exactly one `sending` entry with empty time, the device id as sender and the text as given is appended, the input is cleared and the flag set |
| `ChatClient.ChatbotUI.SettleSend` | src/components/base.tsx:91-106 | the view becomes `Settled` of the old view (confirm on a parsed answer, fail on a throw) and the flag is cleared on both paths |
| `ChatClient.ChatbotUI.SendTextMessage` | src/components/base.tsx:77-107 | a whole send: either nothing changes (guard), or the view is the old view plus the optimistic entry, settled, with input cleared and no send in flight |
| `ChatClient.ChatbotUI.LoadMessages` | src/components/base.tsx:46-62 | an ok poll replaces the view wholesale and records the ping; a non-ok or thrown poll leaves both unchanged |
| `ChatClient.ChatbotUI.PinMessage` | src/components/base.tsx:112-114 | the pin becomes `TogglePin` of the old pin |
| `ChatClient.ChatbotUI.Unpin` | src/components/base.tsx:151 | the banner's button clears the pin |
| `Sync.ErrorAnswersStillConfirm` | src/components/base.tsx:91-97 | every send answer is parsed and takes the success branch: a 500 confirms with `"00:00"`, a 400 with the local time, a 200 with the server's stamp |
| `Sync.ServerErrorSettlesAsMidnight` | src/app/api/chat/send/route.ts:54-56 | the 500 answer's `"00:00"` placeholder settles the optimistic entry exactly as a real send stamped at midnight would |
| `Sync.PartialWriteBreaksLog` | src/app/api/chat/send/route.ts:50 | a send or trimming load whose write fails after emptying the file answers 500, and afterwards every later load and every later valid send answers 500, a send missing `message` or `from` still answers 400, and the file stays unreadable |
| `Sync.PollReplacesView` | src/components/base.tsx:54-57 | after a successful load the view is exactly the server window: at most 10 entries, none pending; after a failed load the view is unchanged |
| `Sync.PollBetweenHalvesDropsEntry` | src/components/base.tsx:54-56 | a poll between the two halves of a send drops the optimistic entry, and settling then changes nothing when the server window has no entry with the temporary id |
| `Sync.SendRoundTrip` | src/components/base.tsx:85-97 | an end-to-end send stores a record with the entry's text and sender under the server's own `Date.now()` id, and confirms the client's entry, still under the client's temporary id, with the very stamp the server stored |
| `Sync.SendAllAppends` | src/app/api/chat/send/route.ts:40-50 | a run of valid sends appends their records in call order with no trimming |
| `Sync.ShortRunThenLoad` | src/app/api/chat/load/route.ts:22-26 | from an absent file, at most 20 sends and a load: the file keeps all records and the newest 10 come back |
| `Sync.LongRunThenLoad` | src/app/api/chat/load/route.ts:22-26 | from an absent file, more than 20 sends and a load: the file holds exactly the newest 20 records, oldest first, and the newest 10 come back (25 sends return records 16–25) |

## Left out

- JSON serialisation and the `fs` calls are not modelled byte by byte. The file is `Absent`, `Unparsable` (reading or parsing throws) or `Stored(log)`. How a write ends is the `WriteResult` parameter. A write that fails partway is assumed to leave a file that no later `JSON.parse` accepts; the exact truncated text is not modelled.
- A parsed file that is valid JSON but not an array is treated as `Unparsable`. This covers `null` or an object, which make the handlers throw. A JSON string, which `slice` would accept, is not modelled either.
- Request members that are non-string JSON values (numbers, booleans) are not modelled. `message` and `from` are strings or missing.
- `new Date()`, `Date.now()`, `performance.now()` and `uuidv4()` are parameters. Rounding of the ping is not modelled; the ping arrives as an integer.
- Whether `Date.now()` ids are unique or increasing is not modelled, because the code does not guarantee either.
- The `setInterval` polling and the `isMounted` cleanup are left out, because they are concurrency and lifecycle. Each handler body is one atomic step. `sendTextMessage` is split at its `await` into `SubmitText` and `SettleSend`, so a poll can land between the two halves.
- The lost update between concurrent POSTs on the same file is left out. It is a race that a sequential model cannot show.
- Rendering is left out: animations, scroll-into-view, the ping colour thresholds, "You"/owner styling, and the input box's `onChange`/`onKeyDown` bindings.
- `src/app/terms/public-data/page.tsx`, `src/app/layout.tsx` and `src/components/navbase.tsx` are not part of this model. They are static content, metadata and a fullscreen toggle.
- `audioUrl` is carried in the view record, but nothing in the code produces one.
