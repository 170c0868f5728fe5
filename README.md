# TaskMan Messenger webhook — a Dafny model

TaskMan is a Facebook Messenger bot served by one Express application
(`src/index.ts`). This project models that application's decision logic:

- the subscription handshake of `GET /webhook`;
- the event dispatch of `POST /webhook`;
- the reply builders `handleMessage` and `handlePostback`;
- the Send API request body built by `callSendAPI`;
- the task-list wrapper `showTasks`.

The network is abstracted away. A handler call leaves one **effect**:

- `Send(request)`: a Send API call with body `{recipient: {id}, message}`;
- `LookupTasks(psid)`: the GET to the task service, whose answer is sent later (`TasksArrived`);
- `Rejected(psid)`: the handler's promise rejected before anything was sent.

The POST handler returns the HTTP answer and the outbox of effects, in the order the calls are issued.
The GET handler returns the HTTP answer, or `None` when it writes nothing.

Modules:

- `Values`: optional fields, JSON and JavaScript truthiness.
- `Ascii`: `toUpperCase` on ASCII letters.
- `Messenger`: the inbound and outbound payload shapes.
- `Replies`: the reply literals and the request body.
- `Handlers`: `handleMessage` and `handlePostback`.
- `Webhook`: the two routes.

Behaviour of `src/index.ts` that the model keeps as written:

- An `attachments` array that is present but empty is truthy in JavaScript. `attachments[0].payload` then throws inside the async `handleMessage`, so nothing is sent (`Rejected`).
- A postback payload other than "yes" or "no" still causes one send, with an `undefined` message.
- A handshake without a truthy `hub.mode` and `hub.verify_token` gets no response at all (`None`).

## Model

| member | source | states |
|---|---|---|
| `Ascii.ToUpper` | src/index.ts:82 | upper-casing keeps the length, upper-cases each character in place, and leaves no lower-case letter |
| `Ascii.ToUpperMatches` | src/index.ts:82 | comparing the upper-cased text with a word is a letter-by-letter comparison that ignores case, in both directions |
| `Handlers.TasksCommandSpellings` | src/index.ts:81-82 | a text is the tasks command exactly when it is "tasks" spelt in any mix of cases |
| `Handlers.TasksCommandExamples` | src/index.ts:81-82 | "tasks", "Tasks" and "tAsKs" are the command; "task", " tasks" and the empty text are not |
| `Handlers.MessageEffect` | src/index.ts:77-127 | text wins over attachments; the tasks command starts a lookup (iff); other text gets the echo of the original text; without truthy text, the first attachment's url goes into the confirmation template, or the handler rejects if it cannot be read (iff); a message with neither is sent as `undefined` (iff); the effect concerns the sender |
| `Handlers.HandleMessage` | src/index.ts:77-127 | the imperative handler, with the reply assigned branch by branch, leaves exactly `MessageEffect` |
| `Handlers.TasksArrived` | src/index.ts:174-186 | once the lookup answers, the reply goes to the asking user, with the service's data verbatim as the template's elements |
| `Handlers.TasksCommandAnswered` | src/index.ts:81-85 | a text spelling "tasks" in any mix of cases starts a lookup for its sender, whatever the attachments, and the send that follows carries the task list to that sender |
| `Handlers.PostbackEffect` | src/index.ts:130-144 | always one send to the sender; the message is defined iff the payload is "yes" or "no"; "yes" gets "Thanks!", "no" gets "Oops, try sending another image." |
| `Handlers.HandlePostback` | src/index.ts:130-144 | the imperative handler leaves exactly `PostbackEffect` |
| `Replies.EchoText` | src/index.ts:88-90 | the echo is the fixed prefix, the original text and the fixed suffix, at known positions |
| `Replies.EchoedText` | src/index.ts:89 | reading back the quoted text of an echo is sound: whatever it returns echoes back to the same string |
| `Replies.EchoRoundTrip` | src/index.ts:89 | the echo quotes the text verbatim: reading it back gives the text |
| `Replies.EchoInjective` | src/index.ts:89 | different texts get different echoes |
| `Replies.ImageConfirmation` | src/index.ts:94-122 | a "template"/"generic" reply with exactly one card showing the given url, with two "postback" buttons whose payloads are "yes" then "no" |
| `Replies.PostbackReply` | src/index.ts:137-141 | a reply is defined iff the payload is "yes" or "no", and it is the fixed text for each |
| `Replies.ConfirmationButtonsAnswered` | src/index.ts:106-117 | every button the confirmation offers is answered by the postback mapping: "yes" with the thanks, "no" with the request for another image |
| `Replies.ShowTasks` | src/index.ts:176-184 | the task list is a "template"/"generic" reply whose elements are the service's data, verbatim |
| `Replies.CallSendApi` | src/index.ts:149-154 | the request body is addressed to the given psid and carries the reply unchanged, `undefined` included |
| `Webhook.VerifyWebhook` | src/index.ts:53-74 | no response iff mode or token is missing or empty; otherwise 200 iff mode is "subscribe" and the token is "taskman", with the challenge echoed verbatim; else 403 |
| `Webhook.HandleWebhookPost` | src/index.ts:20-50 | a page body gets 200 "EVENT_RECEIVED" and the outbox is the dispatch of the entries' first events, in entry order; any other body gets 404 and an empty outbox |
| `Webhook.FirstEvents` | src/index.ts:26-29 | one event per entry, in entry order, and it is that entry's `messaging[0]` |
| `Webhook.HandlerEffect` | src/index.ts:37-41 | the handler an event reaches concerns that event's sender |
| `Webhook.DispatchAppend` | src/index.ts:26-42 | dispatching a run of events is dispatching its parts one after the other |
| `Webhook.DispatchStep` | src/index.ts:26-42 | one more entry adds its own effects at the end of the outbox |
| `Webhook.DispatchCount` | src/index.ts:37-41 | at most one effect per event; exactly one each when every event carries a message or a postback; none when no event does |
| `Webhook.DispatchLength` | src/index.ts:26-42 | the outbox holds exactly one effect per event that carries a message or a postback |
| `Webhook.EffectOfEvent` | src/index.ts:26-42 | a handled event leaves its handler's effect, exactly one, placed after the effects of the events before it |
| `Webhook.EffectsInOrder` | src/index.ts:26 | a later handled event's effect comes later in the outbox |
| `Webhook.EffectProvenance` | src/index.ts:29-40 | every effect comes from some handled event and concerns that event's sender |
| `Webhook.FirstEventOnly` | src/index.ts:27-29 | only `messaging[0]` matters: batches agreeing on each entry's first event dispatch alike |
| `Webhook.MessageTakesPriority` | src/index.ts:37-41 | an event with both a message and a postback reaches only the message handler |

## Left out

- Express setup, the body parsers, `app.listen`, the port and the `GET /` greeting (src/index.ts:7-17, 189): server plumbing with no decisions.
- The HTTP call of `callSendAPI`, its access token and its callback (src/index.ts:157-171): a network side effect, modelled as the `Send` effect carrying the request body.
- The axios GET to the task service (src/index.ts:9-11, 175): foreign I/O. It is modelled as the `LookupTasks` effect; its answer is a parameter of `TasksArrived`. A failing lookup (an unhandled rejection) is not modelled.
- What a `Rejected` handler promise does to the process (a warning or an exit, depending on the Node.js version) is not modelled.
- Async timing: whether the 200 goes out before sends complete. The outbox records the order in which calls are issued, not when they finish.
- `console.log` and `console.error` diagnostics.
- `HandleWebhookPost`: requires every entry of a page body to have a non-empty `messaging` array. The source throws on an empty one, and that throw is not modelled.
- `HandleWebhookPost`: three malformed bodies cannot be expressed, because `Envelope.entry`, `Entry.messaging` and `Event.sender` are plain fields, not optional ones:
  - A page body whose `entry` is missing or is not an array makes `body.entry.forEach` throw (src/index.ts:26), so no 200 is written.
  - An entry without a `messaging` array throws at src/index.ts:29, as an empty array does.
  - A `sender` without an `id` gives an `undefined` psid (src/index.ts:33). The handler still sends, to `recipient: {id: undefined}`.
- `Ascii.ToUpper`: models `toUpperCase` on ASCII letters only. JavaScript also maps some other characters to ASCII capitals (U+017F, long s, becomes "S"), so a few non-ASCII spellings of "tasks" are not recognised here.
- Query values and the string-valued body fields (`object`, `text`, `url`, `payload`) are modelled as optional strings. Express can also deliver arrays or objects for repeated or bracketed query keys; in the source these make `===` fail. The `object` discriminator is the field `obj`, because `object` is a Dafny keyword.
- The Express response object is not modelled as an object: handlers return the status and body they write, and `sendStatus` bodies are the abstract `StatusText`.
