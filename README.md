# whatsapp_on_local — a Dafny model of the session wrapper and the send webhook

The repository drives a whatsapp-web.js client from Node.js and puts an
Express webhook in front of it. This project models the two parts of it that
carry logic of their own:

- `client.dfy`, module `Client` — the `WhatsAppClient` object of
  `src/client.js`: its three fields (`client`, `isReady`, `isAuthenticated`),
  the four lifecycle callbacks (`qr`, `ready`, `auth_failure`,
  `disconnected`) as one transition over an `Event` datatype, `destroy()`,
  `getClient()`, the `isClientReady()` guard in front of each send, the media
  payloads the sends build, the immediate branch of `waitForReady()`, and
  `getChatId()`. The state machine is given twice: as pure functions
  (`Step`, `Run`, `Destroyed`) with lemmas about runs of signals, and as the
  class `WhatsAppClient`, whose methods change its fields and are proved
  against those functions. The whatsapp-web.js `Client` is an opaque
  `Handle`. Every request made of it is appended to the ghost log `calls`,
  so "no call was made" can be stated. What it answers is handed to each
  method as a parameter: the outcome of `initialize()`, the result of
  `sendMessage`, the result of `MessageMedia.fromFilePath`, and the outcome
  of `destroy()`.
- `server.dfy`, module `Server` — the `/webhook/send` handler of
  `src/server.js` as one function from the request fields, the readiness
  value and the send's result to a reply (status and JSON fields) and the
  send it made, plus the `/health` body.
- `wrappers.dfy`, module `Wrappers` — `Option`, `Result` and `Outcome`.

JavaScript truthiness of a string field (`!x`) is modelled as "absent or the
empty string". The chat identifier keeps the characters `0`–`9`, which are
what `\D` excludes in a JavaScript pattern without the `u` flag.

Behaviour the model takes from the code as written, which a reader might
not expect:
- `destroy()` with no handle does nothing at all. It does not clear the
  flags, so a flag a late signal set stays set.
- When the external `destroy()` rejects, the error propagates and no field
  is reset.
- The 503 branch depends on `isReady` and the handle, not on
  `isAuthenticated`.
- `isClientReady()` does not return a boolean (see Findings).

## Model

| member | source | states |
|---|---|---|
| `Client.Step` | src/client.js:42-72 | no lifecycle callback changes the handle |
| `Client.RunKeepsHandle` | src/client.js:42-72 | after any sequence of signals the handle is the one the client started with |
| `Client.RunFlags` | src/client.js:53-55 | after any sequence of signals, `isReady` is the value given by the most recent `ready`/`disconnected` signal, and `isAuthenticated` the value given by the most recent `ready`/`auth_failure` signal (or the initial values when there was none) |
| `Client.RunSnoc` | src/client.js:42-72 | running one more signal is the same as applying its callback to the state the earlier signals left |
| `Client.ReadyAfterSignals` | src/client.js:97-99 | after a run of signals the client is ready exactly when it has a handle and the most recent readiness signal was `ready` |
| `Client.NeverReadyWithoutHandle` | src/client.js:9-13 | from the constructor's state no sequence of signals opens the readiness guard |
| `Client.Destroyed` | src/client.js:223-231 | after a completed teardown there is no handle and the guard is closed; with no handle to begin with the state is unchanged |
| `Client.DestroyTwice` | src/client.js:223-231 | a second `destroy()` changes nothing and makes no external call |
| `Client.DestroyCalls` | src/client.js:224-225 | `destroy()` makes at most one external call, and makes one exactly when a handle is present |
| `Client.WithCaption` | src/client.js:138-140 | the caption is attached exactly when it is non-empty; mimetype, data and filename are untouched |
| `Client.Base64Media` | src/client.js:160-171 | the payload has the given mimetype, data and filename, and a caption exactly when the caption argument is non-empty |
| `Client.Digits` | src/client.js:189 | the stripped string consists of digits only and is no longer than the input |
| `Client.DigitsAppend` | src/client.js:189 | stripping distributes over concatenation |
| `Client.DigitsLength` | src/client.js:189 | the stripped string is as long as the number of digits in the input |
| `Client.DigitsMembership` | src/client.js:189 | a character survives exactly when it occurs in the input and is a digit |
| `Client.DigitsOfDigits` | src/client.js:189 | a string of digits only is left unchanged |
| `Client.GetChatId` | src/client.js:187-193 | the identifier is the input's digits followed by `@c.us`; its length is the digit count plus 5, and all of it before the suffix is digits |
| `Client.GetChatIdIdempotent` | src/client.js:187-193 | applying `getChatId` to a chat identifier gives it back unchanged |
| `Client.IsClientReadyValue` | src/client.js:97-99 | the value `isReady && client` is truthy exactly when the flag is set and the handle is present; it is a boolean only when the flag is clear |
| `Client.WhatsAppClient.constructor` | src/client.js:9-13 | no handle, both flags false, no external call yet |
| `Client.WhatsAppClient.Initialize` | src/client.js:18-82 | the handle is stored whether or not the external start succeeds; the flags are untouched; the start is the one external call; a failed start is returned as the error |
| `Client.WhatsAppClient.OnEvent` | src/client.js:42-72 | `ready` sets both flags; `auth_failure` clears only `isAuthenticated`; `disconnected` clears only `isReady`; `qr` changes nothing; the handle and the call log are never touched |
| `Client.WhatsAppClient.GetClient` | src/client.js:87-92 | fails with the not-initialized error exactly when there is no handle, and otherwise returns the handle |
| `Client.WhatsAppClient.IsClientReady` | src/client.js:97-99 | holds exactly when `isReady` is set and the handle is present |
| `Client.WhatsAppClient.SendTextMessage` | src/client.js:107-120 | when not ready, fails with "Client is not ready" and makes no external call; otherwise makes exactly one `sendMessage` call with the text and returns its result |
| `Client.WhatsAppClient.SendMedia` | src/client.js:129-149 | same guard; a file that cannot be loaded fails with no call; otherwise exactly one `sendMessage` call with the loaded media, captioned when the caption is non-empty |
| `Client.WhatsAppClient.SendMediaBase64` | src/client.js:160-180 | same guard; otherwise exactly one `sendMessage` call with the payload built from the data, caption, mimetype (default `image/jpeg`) and filename (default null) |
| `Client.WhatsAppClient.WaitForReady` | src/client.js:200-203 | resolves at once exactly when the client is ready; otherwise polling starts with the given timeout (default 60000 ms) |
| `Client.WhatsAppClient.Destroy` | src/client.js:223-231 | with a handle: one external destroy, then the handle is cleared and both flags reset (unchanged if the external destroy rejects); with no handle: no call and no change |
| `Server.OrElse` | src/server.js:52 | the fallback `caption or message` is the caption when it is non-empty and the message otherwise, so it is non-empty when the message is |
| `Server.HandleSend` | src/server.js:24-74 | missing or empty `phoneNumber`/`message` gives 400 with no send, whatever the readiness; otherwise not ready gives 503 with `ready:false` and no send; otherwise exactly one send, to media-base64 with caption the fallback `caption or message` when `imageBase64` is non-empty and to text otherwise; a delivered send gives 200 with the message id and `getChatId(phoneNumber)`; a failed one gives 500 with its error; `success` holds exactly on 200 |
| `Server.RejectionIgnoresSend` | src/server.js:29-34 | a request with missing fields is answered the same whatever the readiness and whatever a send would have returned |
| `Server.WebhookMediaIsCaptioned` | src/server.js:51-52 | every media payload the webhook causes carries a caption (the message when no caption is given) and the `image/jpeg` mimetype |
| `Server.WebhookRepliesWithSentChat` | src/server.js:46 | a 200 reply follows a send and reports the chat identifier that send went to |
| `Server.HealthReply` | src/server.js:14-19 | status `ok`, and `whatsappReady` holds exactly when `isReady` is set and the handle is present |
| `Server.HealthReplyAsWritten` | src/server.js:14-19 | the body as written reports a value whose truthiness is the corrected `whatsappReady` |
| `Server.HealthAsWrittenNotBoolean` | src/server.js:17 | when the client is ready, `whatsappReady` as written is the client object, not a boolean |
| `Server.HealthAsWrittenBooleanIff` | src/server.js:17 | `whatsappReady` as written is a boolean exactly when `isReady` is false |

## Findings

| source | as written | input that shows it | evidently intended | confidence | as-written member | corrected member |
|---|---|---|---|---|---|---|
| src/client.js:97-99, src/server.js:17 | `isClientReady()` returns `this.isReady && this.client`, so `/health` puts that value into `whatsappReady` | `isReady` true and a client present: `whatsappReady` is the client object itself (not `true`), which the JSON encoder then serializes or fails on; with `isReady` true and no client it is `null` | `whatsappReady` is the boolean `true` when ready and `false` otherwise | medium, not executed | `Server.HealthAsWrittenNotBoolean` | `Server.HealthReply` |

The guards (`if (!this.isClientReady())`, `if (!whatsappClient.isClientReady())`)
only test truthiness, so they behave as intended. The model's
`WhatsAppClient.IsClientReady` is the corrected boolean.

## Left out

- Construction of the whatsapp-web.js `Client` and `LocalAuth`, the on-disk
  session directory and the Puppeteer launch flags are foreign library calls.
  `Initialize` takes the new handle and the start's outcome as parameters.
- QR rendering (`qrcode-terminal`) and every console and logger line are
  output only. The `qr` signal keeps its code but changes no state.
- `waitForReady`'s `setTimeout`/`setInterval` polling at 1000 ms and its
  timeout rejection are asynchronous timing. Only the immediate branch is
  modelled; the other branch is reported as `Polling(timeoutMs)`.
- Express, CORS, the 50 MB body limit, `app.listen` with `PORT` (default
  3000), `startServer`'s fallback listen, the SIGINT/SIGTERM handlers and the
  ISO timestamps are I/O, process lifecycle and wall-clock values.
- The order of lifecycle signals relative to HTTP requests is interleaving.
  `HandleSend` takes the readiness value current when the request arrives.
- `sendMediaBase64` rechecks readiness inside the handler. `HandleSend`
  represents that second guard only through the `delivered` result it is
  given.
- `MessageMedia.fromFilePath` reads the file and infers the mimetype and
  filename. `SendMedia` takes its result, a media payload or an error, as a
  parameter.
- The dynamic `import('whatsapp-web.js')` inside each media send is assumed
  to succeed.
- `HandleSend`: request fields are strings or absent. A non-string
  `phoneNumber` (for example a JSON number) makes `replace` throw, which the
  handler would answer with 500; this is not modelled. A send result is a
  message with an id or an error, so a result without `id._serialized` is not
  modelled either.
- Caption arguments are strings. A `null` caption passed explicitly is not
  modelled; it is falsy and would behave like `""`.
- The demonstration scripts under `src/examples/` and `src/utils/logger.js`
  only call the client and write to the console.
