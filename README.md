# Multi-tenant WhatsApp gateway: verified model of the core

This project models the core of a multi-tenant WhatsApp Web gateway in Dafny.
Each tenant (a clinic) has one messaging client. The gateway serves two flows:

- **Outgoing:** operators send text through an authenticated HTTP API.
- **Incoming:** patient messages are logged once and answered by an AI
  assistant on a Supabase backend.

The model covers two files.

- **server.js**
  - `cap` and the bearer-token `auth` guard.
  - The session registry: the `clients` map and the `clientInitLocks` map.
  - `ensureClient`, with its lifecycle callbacks and its per-message dedup
    handler.
  - The DELETE route and the `sendText` route with its two-attempt send loop.
- **lovableClient.js**
  - `normPhoneToBR55`.
  - The inbound filter and call sequence of `processIncomingMessage`.
  - The mapping from the assistant's HTTP outcome to a reply text.
  - The failure handling of `saveMessage`.

Modules:

- `JsStrings`: the JavaScript string built-ins the code relies on (`trim`,
  `startsWith`, `endsWith`, `replace` with a string pattern), over `seq<char>`.
- `Gateway`: `cap` and `auth`, as pure functions.
- `Lovable`: lovableClient.js.
  - Phone normalisation, the filter and the reply mapping are pure functions.
  - `saveMessage` and `processIncomingMessage` are methods. Each returns the
    trace of external calls it makes (`Effect`).
  - The outcome of every external call is a parameter.
- `Sessions`: the registry, as the `Registry` class. Its fields are `clients`,
  `locks`, the constructed and destroyed client handles, and the status mirrored
  into the session store.
  - Each entry is an `Entry` object. Its callbacks rewrite it in place.
  - The lifecycle is also a pure transition function, `Transition`, and `Replay`
    applies it to a sequence of events; lemmas are proved about `Replay`.
  - `ensureClient` is asynchronous, so it becomes three methods:
    - `EnsureClient`: everything up to `await client.initialize()`.
    - `FinishInit`: the continuation once `initialize` settles, with its
      `finally`.
    - `AwaitInit`: the continuation of a caller that found a lock.
- `MessageLog`: the message collection of the document store, as the `Store`
  class.
  - The handler's effect on it is the pure `HandleStep`.
  - `Run` folds `HandleStep` over any sequence of arrivals.
  - The `sendText` loop is `DeliverWithRetry`.
- `Scenarios`: callers that exercise the registry and the store through their
  contracts alone.

The model follows the code as written. Some of its behaviours are easy to miss:

- The `qr` callback writes the status `'qr'`.
- An entry whose `initialize` failed stays registered with status
  `'init_error'`. Later calls to `ensureClient` return it as it is; nothing
  re-initialises it until a disconnect or DELETE removes it.
- A second caller during an initialisation usually takes the fast path: the
  entry is registered before `initialize` is called, and the lock is taken
  right after the call, before `initialize` settles. The lock-wait path is
  reached when the entry was removed while its initialisation was running, or
  in the moment around a failed construction (see "Left out"). It then yields
  the initialisation's error, or nothing when the initialisation succeeded.
- The server-side message handler does not filter groups or own messages; only
  `processIncomingMessage` does. Such a message is still logged, and it gets a
  part with `delivered` false.
- `'init_error'` is never written to the session store.
- When `ensureClient` yields nothing, `sendText` does not answer 500. Both send
  attempts fail before reaching a client, the outbound document is written with
  `delivered` false, and the response is 200.

## Model

| member | source | states |
|---|---|---|
| Gateway.Cap | server.js:58 | The result is never longer than `n`. It is a prefix of the input (a missing input reads as empty). The input is returned whole when it fits and cut to exactly `n` characters when it does not. |
| Gateway.Token | server.js:46-47 | A header without the `Bearer ` prefix yields an empty token. With the prefix, the header is exactly the prefix followed by the token. |
| Gateway.AuthAdmitsExactly | server.js:45-50 | `auth` passes a request if and only if no key is configured or the header is exactly `"Bearer "` followed by the key. Otherwise the answer is 401. |
| JsStrings.Trim | server.js:148 | The result of `trim` is empty exactly when the input is all whitespace, and a non-empty result neither starts nor ends with whitespace. |
| JsStrings.TrimKeepsMiddle | server.js:148 | The result of `trim` is the slice of the input that starts where the leading whitespace ends. |
| JsStrings.TrimDropsOnlyWhitespace | server.js:148 | Everything `trim` drops, before and after that slice, is whitespace. |
| JsStrings.RemoveFirst | lovableClient.js:181 | `replace('@c.us', '')` removes at most one occurrence: the length is unchanged or shorter by the pattern's length. |
| JsStrings.RemoveFirstIsFirst | lovableClient.js:181 | When the pattern first occurs at index `i`, the result is the input with exactly that occurrence cut out. |
| JsStrings.RemoveFirstAbsent | lovableClient.js:181 | A sender without `@c.us` is kept unchanged. |
| JsStrings.RemoveFirstAfter | lovableClient.js:181 | The occurrence removed is the first one: `a + "@c.us" + b` becomes `a + b` when `a` contains no `@`. |
| Lovable.KeepDigits | lovableClient.js:15 | Keeps only digits. The result is empty exactly when the input has no digit, and a digit string is returned unchanged. |
| Lovable.KeepDigitsOne | lovableClient.js:15 | A single character is kept exactly when it is a digit. |
| Lovable.KeepDigitsAppend | lovableClient.js:15 | The digits of a concatenation are the digits of each part, in order. With `KeepDigitsOne` this fixes the result: the input's digits, in order, and nothing else. |
| Lovable.NormPhoneToBR55 | lovableClient.js:13-22 | The result is all digits. It is empty if and only if the input has no digit. A non-empty result starts with `55`. When the digits already start with `55`, they are returned as they are. |
| Lovable.NormPhoneStripsLeadingZeros | lovableClient.js:19-21 | When the digits do not start with `55`, the result is `55` followed by the digits minus their whole run of leading zeros, and nothing else is removed. |
| Lovable.NormPhoneIdempotent | lovableClient.js:13-22 | Normalising an already normalised number returns it unchanged. |
| Lovable.MessageIdOf | lovableClient.js:183 | The id passed to `saveMessage` is never an empty string. It is absent if and only if the message has no id or both id strings are empty. A non-empty short id wins. The id is always one of the two strings. |
| Lovable.Admit | lovableClient.js:175-185 | A message is admitted if and only if all of these hold: it is not from the account itself; the sender does not end with `@g.us`; its type is missing, empty or `chat`; the sender without its first `@c.us` is non-empty; the trimmed body is non-empty. An admitted message carries that sender number, that text and the message id. |
| Lovable.AdmitContactMessage | lovableClient.js:175-185 | A chat from `number@c.us` (where `number` has no `@`) with a non-blank body is admitted, with sender number `number` and the trimmed body. |
| Lovable.GetAiResponse | lovableClient.js:119-165 | The reply is never empty. It is one of the six fixed fallback texts, or the assistant's own reply from a 2xx answer. A non-empty 2xx reply is passed through unchanged. So the empty-reply guard at lovableClient.js:194-197 can never fire. |
| Lovable.SaveEffects | lovableClient.js:87-116 | `saveMessage` only looks up or creates the conversation and inserts the message; it never sends anything. |
| Lovable.SaveMessage | lovableClient.js:87-116 | Never throws. Returns true if and only if the phone normalises to something, a conversation id is obtained and the insert succeeds. On success the insert carries that conversation id. |
| Lovable.ProcessIncomingMessage | lovableClient.js:172-212 | A filtered-out message makes no call at all. An admitted one makes the calls `AdmittedTrace` lists. Exactly one of them is a send, and it carries the assistant's reply to the sender. The result is true if and only if the message was admitted and the send succeeded. |
| Lovable.AnswerAdmitted | lovableClient.js:187-205 | For an admitted message the calls are, in order: save the received text, ask the assistant (when it is configured), send the reply, and save the reply only if the send succeeded. The result is whether the send succeeded. |
| Lovable.AdmittedTraceSendsOnce | lovableClient.js:187-205 | That call sequence holds exactly one send, and it is the assistant's reply to the sender. |
| Sessions.ReplayStatus | server.js:110-142 | After any non-empty sequence of lifecycle events, the status is the one the last event writes. No event leads back to `starting` or `init_error`. |
| Sessions.ReplayQrNone | server.js:110-115 | With no `qr` event, the stored pairing payload stays the initial one. |
| Sessions.ReplayQrLatest | server.js:110-115 | The stored pairing payload is the one carried by the latest `qr` event, whatever events follow it. |
| Sessions.ReadyAtSticky | server.js:117-122 | Once a `ready` event has stamped `readyAt`, no later event clears it. |
| Sessions.Entry.constructor | server.js:86-107 | A new entry holds its client, status `starting`, an empty pairing payload and no `readyAt`. |
| Sessions.Registry.constructor | server.js:53-54 | Both maps start empty. |
| Sessions.Registry.EnsureClient | server.js:73-108 | An empty tenant id is rejected. A registered entry is returned unchanged and the registry is untouched. A tenant with only a lock must wait. When constructing the auth strategy or the client throws, the error propagates and the registry is left exactly as it was. Otherwise a new client gets a `starting` entry and the lock is taken, before `initialize` settles. Two tenants never share a client, and no live client is left unregistered. |
| Sessions.Registry.FinishInit | server.js:192-208 | The lock is released whether `initialize` succeeds or fails. On failure the entry becomes `init_error`, stays registered, and the error propagates. |
| Sessions.Registry.AwaitInit | server.js:79-82 | A waiting caller gets the awaited failure, or otherwise whatever is registered now, which may be nothing. |
| Sessions.Registry.OnEvent | server.js:110-142 | Each callback moves its entry by `Transition`, whether or not `saveSession` fails. The stored status follows only when the save succeeds. `disconnected` destroys the client and removes whatever entry the tenant has by then. |
| Sessions.Registry.OnEventChecked | server.js:136-141 | The same callbacks, except that `disconnected` removes the tenant's entry only while it is still the caller's own. No live client is ever left unregistered. |
| Sessions.Registry.Delete | server.js:253-266 | Always succeeds. Afterwards the tenant is absent from `clients`. Its client, if any, is destroyed, and its stored session is cleared when that call succeeds. The lock is untouched, and no live client is left unregistered. |
| MessageLog.HandlerMessageId | server.js:146 | The document id is never empty. It is absent if and only if the message has no id or both id strings are empty. A non-empty serialized id wins. The id is always one of the two strings. |
| MessageLog.Extract | server.js:146-150 | A message has a document key if and only if it has an id, a sender and a non-blank capped body. The key is `(tenantId, id)`. |
| MessageLog.HandleStep | server.js:150-186 | The handler processes a message if and only if it has a key that is not yet logged, and the read and the inbound write succeed. Otherwise the store is unchanged. When processed, the inbound document is written, and one part with `delivered` is appended unless that write fails. |
| MessageLog.HandleStepKeepsWellFormed | server.js:150-186 | The handler keeps every part attached to a logged message, at most one per message. A fully successful run leaves exactly one part, carrying `delivered`. |
| MessageLog.SameMessageTwice | server.js:152-155 | Once a message has been logged, a redelivery of it changes nothing and processes nothing. |
| MessageLog.RunProcessesEachKeyOnce | server.js:145-190 | Over any sequence of arrivals, including redeliveries and failures: each key is processed at most once, only if it was not logged before, and is logged afterwards. Logged documents are never dropped or rewritten. |
| MessageLog.RunKeepsWellFormed | server.js:145-190 | Over any sequence of arrivals the store keeps at most one part per logged message. |
| MessageLog.DeliverWithRetry | server.js:278-287 | Makes one or two attempts, all sending the same payload to the same recipient, and stops at the first success. `delivered` is true if and only if some attempt succeeded. A second attempt happens only after a failed first. |
| MessageLog.Store.HandleMessage | server.js:145-190 | The store moves exactly as `HandleStep` says, with `delivered` as reported by `processIncomingMessage`. An unprocessed message makes no call, and neither does a message the filter of `processIncomingMessage` ignores, such as a group or own message. At most one reply is sent, and an admitted message's reply goes to its sender. |
| MessageLog.Store.SendText | server.js:268-302 | Returns 400 when `to` or `text` is missing, and 500 when `ensureClient` fails. Otherwise the capped text is sent with the same payload on each attempt. A successful first attempt is the only one, and a failed first attempt is always retried once. Exactly one outbound document records `delivered`, and the response carries that flag (500 if the write fails). |

## Left out

- HTTP and process wiring are not modelled:
  - Express routing and CORS;
  - the `/health` and `/ready` routes;
  - QR SVG encoding;
  - `app.listen`;
  - the signal and uncaught-exception handlers;
  - logging (`log`, `shouldLog`).
- The `POST /sessions/:tenantId`, `GET .../qr` and `GET .../status` routes are not modelled. They only call `ensureClient` and echo entry fields.
- sessionStore.js is not part of this model. `saveSession` and `clearSession` are best-effort calls whose success is a parameter. Only the status they store is mirrored. The two backends differ (the file backend overwrites and the Firestore backend merges), and the model does not distinguish them.
- firebaseAdmin.js is not part of this model. It only initialises the SDK.
- The Supabase REST and Edge calls (`sb`, `fetch`, `upsertConversationGetId`) are not modelled as I/O. Each call's outcome is a parameter, and the lookup-or-create of a conversation is one `UpsertConversation` effect.
- The whatsapp-web.js client, `LocalAuth` and the puppeteer options are left out. The client is an opaque numbered handle, and the outcomes of `initialize` and `sendMessage` are parameters.
- Promise interleaving is modelled only for `ensureClient`. It is split at its `await`, and a caller may run any registry method between the parts. Each other async operation is one atomic method.
- MessageLog.RunProcessesEachKeyOnce: holds only when handler runs do not overlap. In the source, the existence check and the inbound write (server.js:154-158) are separate awaits. Two deliveries of one message that overlap there could both be processed. The model makes the check and the write one step.
- `sleep(400)` between send attempts, clocks and timestamps, `serverTimestamp`, and the raw metadata of the inbound document are not modelled. `readyAt` is a timestamp supplied by the caller.
- The catch at server.js:177-179 is not modelled. `processIncomingMessage` catches everything itself, so that catch is unreachable.
- Gateway.Cap: counts Dafny characters, not the UTF-16 code units JavaScript's `length` and `slice` count.
- Sessions.Registry.EnsureClient: does not model a non-string tenant id. The route parameter is always a string.
- Sessions.Registry.EnsureClient: whether constructing `LocalAuth` and `Client` succeeds is the parameter `constructOk`. Which tenant ids `LocalAuth` rejects is not modelled. When construction throws, the source holds the lock for a moment, until the rejected promise settles. A caller arriving in that moment waits and gets the same error, which is `AwaitInit` with `initOk` false. The model leaves out that moment and returns the registry unchanged at once.
- MessageLog.Store.SendText: does not model `String(to)` on non-string request values. `to` and `text` are optional strings, and missing means absent or empty.
- MessageLog.Store.SendText: takes the outcome of `ensureClient` (server.js:274) as a `ClientLookup` parameter. It does not show the registry change that call may make, such as a new client being registered. `Sessions.Registry.EnsureClient` states that change.
- Lovable.GetAiResponse: does not model a non-string `reply` in the assistant's JSON. A truthy non-string value would be passed on as it is.
- MessageLog.Store.HandleMessage: states the sends, not the whole call trace. There is no call at all for a message the filter ignores, and at most one send otherwise. `Lovable.ProcessIncomingMessage` states the trace.

## Findings

| source | as written | input that shows it | evidently intended | confidence | as-written member | corrected member |
|---|---|---|---|---|---|---|
| server.js:136-141 | The `disconnected` callback removes the tenant's entry by tenant id, whichever entry is registered by then. | Tenant `clinicD` gets client 0, is deleted over HTTP, and gets client 1. Then a `disconnected` event from client 0 arrives. It removes client 1's entry without destroying client 1, and the next request constructs client 2 beside it. | Remove the entry only while it is still the one created with this client. Then every live client stays registered. | not executed | Scenarios.StaleDisconnectOrphansClient | Sessions.Registry.OnEventChecked |
