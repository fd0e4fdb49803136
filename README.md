# Chat worker: usage quota, conversation history and static file typing

This project models the request-handling core of an edge worker that lets a
browser chat with a character through a third-party completion service. It
is written in Dafny and its properties are proved with the Dafny verifier.

- **Usage tracker** (`checkUsageLimit`, `incrementUsageCount`):
  - Each client is identified by a fingerprint string.
  - The client gets 20 chats per calendar day.
  - The count is kept as decimal text under `usage:<fingerprint>:<YYYY-MM-DD>` in a key-value store.
- **Chat endpoint** (`handleChatRequest`):
  - It validates the request and checks the quota.
  - It loads the character prompt, the global prompt and the API key.
  - It loads the stored history under `history:<fingerprint>:<characterId>`.
  - It sends `[global, character, ...history, user]` upstream.
  - Only on success does it append the exchange, keep the newest ten entries, save them and count the turn.
  - It answers with an estimate of the remaining chats.
- **Remaining endpoint** (`handleRemainingRequest`): reports `max(0, 20 - count)` and writes nothing.
- **Static files**: maps a request path to the store key it reads, the content type it answers with, and whether it reads the value as binary.
- **Client checks** (`validateMessage`, `isRateLimited`): the checks the chat page runs before sending.

Modules:

- `Js` (`js.dfy`) holds the JavaScript built-ins the code depends on:
  - truthiness;
  - `trim` with the ECMAScript whitespace set;
  - `length` in UTF-16 code units;
  - `lastIndexOf` and `substring`;
  - integer `toString`;
  - `parseInt`, with whitespace skipping, sign, `0x` prefix, digit prefix and NaN.
- `HistoryJson` (`history_json.dfy`) holds the stored text form of a history:
  - `JSON.stringify` of `[{role, content}, ...]`;
  - a reader for that form.
- `Kv` (`kv.dfy`) is the key-value namespace: a class whose `data` map the methods update, with a ghost trace of every access.
- `Worker` (`worker.dfy`) is the usage tracker, both endpoints and the static-file typing.
  - The chat turn is a pure function `ChatTurn` from the old store to an `Outcome`. The `Outcome` holds the response, the upstream call, the accesses and the new store.
  - `HandleChatRequest` is the imperative handler over a `Kv.Store`. It is proved to do exactly what `ChatTurn` says.
- `App` (`app.dfy`) holds the two client-side checks.

Environment dependencies are parameters:

- The upstream service is a function parameter `upstream: Call -> Completion`.
- The date is a parameter. The handler reads the clock twice (once in the check, once in the increment), so a turn takes `checkDay` and `commitDay`.
- The page's clock is the parameter `now`.

Where the code and the design description disagree, the model follows the code:

- **Unreadable history** (`src/worker.js:89`): the design says an unreadable stored history counts as empty. The code calls `JSON.parse` inside the handler's `try`, so the turn fails with 500 "Internal server error" and nothing is sent upstream. That is what `ChatTurn` does.
- **Increment day** (`src/worker.js:128`, `src/worker.js:205`): the increment goes to the usage record of the day current at increment time. That day may differ from the day that was checked.

## Model

| member | source | states |
|---|---|---|
| Js.TrimStart | public/js/app.js:135 | the result is a suffix of the input, everything dropped is whitespace, and it does not start with whitespace |
| Js.TrimEnd | public/js/app.js:135 | the result is a prefix of the input, everything dropped is whitespace, and it does not end with whitespace |
| Js.TrimMiddle | public/js/app.js:135 | `trim()` leaves a contiguous middle part of the input, starting where `TrimStart` leaves off, with only whitespace on either side of it |
| Js.TrimEnds | public/js/app.js:135 | a non-empty result of `trim()` neither starts nor ends with whitespace |
| Js.TrimEmptyIffBlank | public/js/app.js:135 | `message.trim().length === 0` holds exactly when every character of the message is ECMAScript whitespace |
| Js.Utf16Length | public/js/app.js:139 | `message.length` counts UTF-16 code units: between the character count and twice it, and equal to it when every character is in the Basic Multilingual Plane |
| Js.LastIndexOf | src/worker.js:268 | `lastIndexOf('.')` is -1 exactly when there is no dot; otherwise the position holds a dot and no later position does |
| Js.NatToDecimal | src/worker.js:211 | `count.toString()` is a non-empty run of decimal digits with no leading zero unless it is "0" |
| Js.ReadDecimal | src/worker.js:195 | reading the digits that `toString` wrote gives back the number |
| Js.ParseIntOfIntToString | src/worker.js:209-211 | `parseInt(i.toString()) === i` for every integer, negative ones included |
| Js.ParseIntOfNumToString | src/worker.js:209-211 | the same round trip for every count the code can store, NaN included (`parseInt("NaN")` is NaN) |
| Js.ParseIntSkipsWhitespace | src/worker.js:195 | `parseInt` skips the leading whitespace and reads a number from what follows |
| Js.ParseIntOfBlank | src/worker.js:195 | an all-whitespace (or empty) text reads as NaN |
| HistoryJson.EscapeCharRoundTrip | src/worker.js:123 | every character's `JSON.stringify` escape reads back as that character, and the text after it is untouched |
| HistoryJson.StringifyHistory | src/worker.js:123 | `JSON.stringify(history)` is an array literal: it starts with `[` and ends with `]`, and it is `[]` exactly for the empty history |
| HistoryJson.ParseHistory | src/worker.js:89 | `JSON.parse` of stored text gives the empty history exactly for `[]`, and accepts only text starting with `[` |
| HistoryJson.StringRoundTrip | src/worker.js:123 | a quoted, escaped string reads back as the original string |
| HistoryJson.MessageRoundTrip | src/worker.js:112-115 | one `{role, content}` entry as stringified reads back as the same entry |
| HistoryJson.ElementsRoundTrip | src/worker.js:123 | a comma-separated list of entries reads back as the same list |
| HistoryJson.HistoryRoundTrip | src/worker.js:123 | the history written by `JSON.stringify` reads back with `JSON.parse` (line 89) as exactly the same list of messages |
| Kv.Store.Get | src/worker.js:194 | `get` returns the stored value or None, changes no value, and records the read |
| Kv.Store.Put | src/worker.js:123-125 | `put` overwrites exactly one key and records the write with its time-to-live |
| Worker.KeysDistinct | src/worker.js:73-87 | usage keys, history keys, character keys, `global_prompt` and `venice_api_key` never collide: they differ in their first character |
| Worker.UsageKeyInjective | src/worker.js:192 | on one day two fingerprints share a usage record only if they are equal |
| Worker.UsageKeyPerDay | src/worker.js:191-192 | one client's usage records of two different days are different keys |
| Worker.NextCount | src/worker.js:209 | the value written is one more than the count the check reads: 1 when nothing is stored, NaN after NaN |
| Worker.StoredCountReadsWritten | src/worker.js:195-198 | the count the check reads back from what the increment wrote is that same number, and the check admits it iff it is a number below 20; with nothing stored the count is 0 and admitted |
| Worker.IncrementReadsBack | src/worker.js:204-214 | after an increment, the next check reads one more than the previous check read, whatever text was stored |
| Worker.CheckUsageLimit | src/worker.js:190-201 | reads only the day's usage key; the count is 0 when it is absent or empty and `parseInt` of it otherwise; allowed iff the count is a number below 20 |
| Worker.IncrementUsageCount | src/worker.js:204-214 | reads then writes only the day's usage key with the incremented count as decimal text and a 24-hour TTL; every other key is unchanged |
| Worker.IncrementsCount | src/worker.js:195-211 | from no record, after n increments the check reads exactly n |
| Worker.QuotaAdmitsTwenty | src/worker.js:198 | from no record, the check admits the turn after n increments iff n < 20: twenty turns a day, and the 21st is refused |
| Worker.ChatRemaining | src/worker.js:132 | `Math.max(0, 20 - count - 1)` is 0 iff count >= 19, otherwise 19 - count, and never above 19 for a non-negative count |
| Worker.RemainingOf | src/worker.js:173 | `Math.max(0, 20 - count)` is NaN iff the count is NaN; otherwise it is 0 iff the count is at least 20, and 20 - count otherwise; at most 20 for a non-negative count |
| Worker.BuildMessages | src/worker.js:92-97 | the upstream list is the global prompt (or "" when unset), the character prompt, the history in stored order, then the user message |
| Worker.EmptyHistoryPrompt | src/worker.js:92-97 | with no history the prompt is exactly `[global, character, user]` |
| Worker.KeepRecent | src/worker.js:112-120 | the new history has min(old + 2, 10) entries and is the newest entries of the old history followed by the new exchange |
| Worker.KeepRecentKeeps | src/worker.js:112-120 | the new history ends with the exchange; nothing is dropped while at most ten fit; from ten entries the oldest exchange is dropped and order is kept |
| Worker.ReplayLength | src/worker.js:111-120 | after n successful turns from no history it holds min(2n, 10) entries, ending with the latest reply |
| Worker.LoadedHistoryOfSaved | src/worker.js:88-89 | a history key never written loads as the empty history, and one written by a turn loads as the history written |
| Worker.SaveTurn | src/worker.js:111-128 | the commit of a successful turn adds no key besides the history key and the commit day's usage key |
| Worker.ChatMissingFields | src/worker.js:51-58 | a request with a missing or empty field gets 400 "Missing required fields", with no store access, no call and no change |
| Worker.ChatTurn | src/worker.js:47-145 | a 400 iff a field is missing, and then no access and no call; every non-200 answer leaves the store unchanged and only reads; an upstream call happens exactly on a 200 or an AI-service error, and the response matches what upstream answered |
| Worker.HandleChatRequest | src/worker.js:47-145 | the handler returns the response and call `ChatTurn` gives, leaves the store `ChatTurn` gives, and performs exactly its accesses in order |
| Worker.SaveTurnWrites | src/worker.js:111-128 | the commit writes only the history key and the commit-day usage key; the history reads back as the kept history and the usage record as one more than before |
| Worker.SaveHistoryAndCount | src/worker.js:111-128 | push, slice to the last ten, save with a 24-hour TTL, then increment: the store and trace after it are those of the commit specification |
| Worker.ChatQuotaGate | src/worker.js:60-70 | a complete request gets a 429 iff the checked day's count is not a number below 20; a refused turn answers "Daily limit exceeded" with the user-facing limit message, reads only that key, calls nothing and writes nothing |
| Worker.ChatConfiguration | src/worker.js:72-84 | an admitted turn fails with a configuration error iff the character prompt or the API key is missing, after reading exactly the four keys; the answer is 500 "Configuration error"; a missing global prompt is no error |
| Worker.ChatUnreadableHistory | src/worker.js:86-89 | a stored history that `JSON.parse` rejects ends the turn in the 500 "Internal server error" of the catch block, with no upstream call |
| Worker.ChatPrompt | src/worker.js:92-100 | whenever upstream is called it gets the stored API key and the list `BuildMessages` gives from the loaded history |
| Worker.ChatUpstreamFailure | src/worker.js:100-109 | a failed upstream call answers 500 with `error` "AI service error" and changes no key |
| Worker.ChatCommit | src/worker.js:111-132 | on success only the history and commit-day usage keys change; the history is the kept history with the new exchange; the count is one more; `remainingChats` is computed from the count read before the increment |
| Worker.ChatReplySaves | src/worker.js:111-132 | a reply comes only from an admitted turn whose history loaded, and its store is that turn's commit |
| Worker.ChatHistoryBounded | src/worker.js:117-120 | after a successful turn the stored history parses, holds between 2 and 10 entries, and ends with the user message and the reply |
| Worker.ChatKeepsOtherDays | src/worker.js:191-213 | a successful turn leaves every usage record of the client other than the commit day's as it was, so a day with no record yet still admits the client afterwards |
| Worker.RemainingQuery | src/worker.js:157-176 | a 400 iff the fingerprint is missing or empty; otherwise `RemainingOf` of the count stored under the client's key for the day, which is `max(0, 20 - count)`, between 0 and 20 whenever that count is a non-negative number |
| Worker.HandleRemainingRequest | src/worker.js:157-176 | answers what `RemainingQuery` says, changes no stored value and performs at most one access, a read |
| Worker.ChatThenRemaining | src/worker.js:128-173 | when the check and the increment fall on the same day, the remaining endpoint right after a successful turn reports exactly the `remainingChats` the turn returned |
| Worker.Extension | src/worker.js:268 | the extension is the suffix from the last dot, with no dot after its first character, or the whole path when there is no dot |
| Worker.ImageIffImageType | src/worker.js:257-270 | an extension is fetched as binary exactly when its content type starts with `image/` |
| Worker.NoDotPlainText | src/worker.js:268-269 | a path with no dot is served as `text/plain` |
| Worker.IsImage | src/worker.js:270 | every extension fetched as binary starts with a dot and has its own entry in the content-type table |
| Worker.ContentTypeKnown | src/worker.js:269 | every content type answered is `text/plain` or a value of the table |
| Worker.IndexIsHtml | src/worker.js:252-270 | the root path resolves to the `.html` extension, served as HTML and not as binary |
| Worker.PlanStatic | src/worker.js:250-273 | the store key is `static:` plus the served path; the type is the table entry for the suffix from the last dot, or `text/plain` when the table has none; binary iff that suffix is one of the five image extensions, equivalently iff the type starts with `image/`; the root is HTML text; a path with no dot is plain text |
| App.ValidateMessage | public/js/app.js:134-144 | a blank message error iff the message is missing or all whitespace; a length error iff it is not blank and longer than 500 UTF-16 code units; valid iff neither |
| App.IsRateLimited | public/js/app.js:147-150 | a request is limited exactly until `minInterval` milliseconds after the last one, and also when the clock reads earlier than the last request (for a positive interval) |
| App.RateLimitWindow | public/js/app.js:147-150 | with the default interval a request is limited iff it comes less than 1000 ms after the last one; once not limited, it stays so as the clock advances |

## Left out

- HTTP plumbing is not modelled: routing, CORS headers, the 405 answers to non-POST methods, the response framing and the logging.
- Decoding the request body is not modelled. The body is taken as decoded into fields that are strings or absent. Two behaviours are therefore missing: a body that is not JSON (a 500 from the catch block), and fields of other JSON types.
- `callVeniceAI` is an opaque function parameter. That covers its model name, its temperature, its token limit and its `fetch`, so a network failure appears only as `Failed`.
- Key expiry is not modelled: the 24-hour TTL is recorded in each write of the trace, and nothing ever expires.
- The clock is not modelled. `new Date()` becomes the `checkDay`/`commitDay` parameters, and `Date.now()` becomes `now`.
- HistoryJson.ParseHistory: reads only the layout `JSON.stringify` writes for a list of `{role, content}` string pairs: no whitespace, `role` then `content`, no other keys, no other value types. Inside strings it accepts every JSON escape (`\/`, `\u0041`, ...) except a `\u` escape of a UTF-16 surrogate, which `JSON.parse` accepts (as a pair or a lone surrogate). For any other text it answers None, the 500 of the catch block, where `JSON.parse` may succeed and the code goes on to a call upstream or to a different failure.
- Js.ParseInt: reads integers exactly. The loss of precision above 2^53 and the exponent form of very large numbers are not modelled. Counts never come near them.
- Concurrent turns are not modelled: each operation runs alone on the store, so the lost update between two concurrent read-modify-writes of one key is not represented.
- Kv.Store.Get, Kv.Store.Put and Worker.ChatTurn: the store never fails. In the code a `get` or `put` that throws is caught by the handler's catch block, answering 500 "Internal server error"; a `put` failing in `incrementUsageCount` after the history was written leaves the history saved and the count not incremented. That partial commit, and the error answer for store failures, are not modelled, so "every non-200 answer leaves the store unchanged" holds only for a store that does not fail.
- Fetching the static file content is left out: the KV read as text or `arrayBuffer`, the 200 with the content, the 404 and the catch path. Only the decision made before the read is modelled.
- Worker.HandleRemainingRequest: the catch path (500) is not modelled, because the modelled store never fails (see the store line above).
- Strings are sequences of Unicode scalar values, so lone surrogates cannot be represented. UTF-16 lengths are computed from the characters.
- App.IsRateLimited: takes `lastRequestTime` as an integer. A non-numeric value (NaN arithmetic) is not modelled.
- The rest of the repository is not part of this model: the test-image handler, the simplified worker, the upload scripts and the rest of the page script.
