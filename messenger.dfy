/** The shapes of the Messenger Platform payloads the webhook reads and writes,
    and of what its handlers hand back to the HTTP layer. */
module Messenger {
  import opened Values

  // ---- inbound: the POST /webhook body ----

  /** `attachments[i].payload`; only `url` is read. */
  datatype AttachmentPayload = AttachmentPayload(url: Option<string>)

  datatype Attachment = Attachment(payload: Option<AttachmentPayload>)

  /** `webhook_event.message`: optional `text`, optional `attachments` array. */
  datatype Message = Message(text: Option<string>, attachments: Option<seq<Attachment>>)

  /** `webhook_event.postback`: the tapped button's `payload`. */
  datatype Postback = Postback(payload: Option<string>)

  /** One messaging event: `sender.id` and at most a message and a postback. */
  datatype Event = Event(sender: string, message: Option<Message>, postback: Option<Postback>)

  /** One batched entry; only `messaging[0]` is ever read. */
  datatype Entry = Entry(messaging: seq<Event>)

  /** The request body: the `object` discriminator (`obj`) and the `entry` array. */
  datatype Envelope = Envelope(obj: Option<string>, entry: seq<Entry>)

  // ---- outbound: replies and the Send API request body ----

  /** A template button `{type, title, payload}`. */
  datatype Button = Button(kind: string, title: string, payload: string)

  /** A generic-template element built by the bot `{title, subtitle, image_url, buttons}`. */
  datatype Card = Card(title: string, subtitle: string, imageUrl: Option<string>, buttons: seq<Button>)

  /** A template's `elements`: cards the bot built, or data placed there verbatim. */
  datatype Elements = Cards(cards: seq<Card>) | Verbatim(data: Json)

  datatype TemplatePayload = TemplatePayload(templateType: string, elements: Elements)

  datatype AttachmentBody = AttachmentBody(kind: string, payload: TemplatePayload)

  /** A reply message: `{text}` or `{attachment: {type, payload}}`. */
  datatype Reply = TextReply(text: string) | AttachmentReply(attachment: AttachmentBody)

  /** The Send API body `{recipient: {id}, message}`; a `None` message is `undefined`. */
  datatype SendRequest = SendRequest(recipientId: string, message: Option<Reply>)

  /** What one handler call leaves behind: a Send API call, a request to the task
      service whose answer is sent later, or a rejected handler promise. */
  datatype Effect =
    | Send(request: SendRequest)
    | LookupTasks(lookupFor: string)
    | Rejected(rejectedFor: string)
  {
    /** The user the effect concerns. */
    function Psid(): string
    {
      match this
      case Send(r) => r.recipientId
      case LookupTasks(p) => p
      case Rejected(p) => p
    }
  }

  // ---- the HTTP answer ----

  /** `send(body)` with a string, `send(undefined)`, or `sendStatus` (the status text). */
  datatype ResponseBody = Body(text: string) | EmptyBody | StatusText

  datatype HttpResponse = HttpResponse(status: int, body: ResponseBody)
}
