/** The records the relay bot exchanges with the chat platform, its
    subscriber table and its caller. */
module Telegram {
  import opened Wrappers

  /** A chat's `chat.id`; the key of the subscriber table. */
  type ChatId = int

  /** One size variant of an attached photo; only its `file_id` is used. */
  datatype PhotoSize = PhotoSize(fileId: string)

  /** An already-parsed inbound `message`: `chat.id` and the optional
      `text`, `photo` (list of size variants) and `caption` fields.
      `None` stands for a field that is absent or null; a null `caption`,
      which the code would copy into the request as `"caption": null`, is
      treated here as absent. */
  datatype Message = Message(
    chatId: ChatId,
    text: Option<string>,
    photo: Option<seq<PhotoSize>>,
    caption: Option<string>)

  /** The platform method a `post` goes to. `NoHandler` is the undefined
      handler left over when a message has neither text nor photo. */
  datatype HandlerKind = SendMessage | SendPhoto | NoHandler

  /** The parameters object of a `post`; `None` is a field that is not set
      (or set to `undefined`, which the JSON body drops). */
  datatype Payload = Payload(text: Option<string>, caption: Option<string>, photo: Option<string>)

  /** One outbound `post(handler, params, chatId)`. */
  datatype Call = Call(handler: HandlerKind, payload: Payload, chatId: ChatId)

  /** The configured texts (`config.greetingsText`, `config.helpText`). */
  datatype Config = Config(greetingsText: string, helpText: string)

  /** The farewell text of the unsubscribe flow. */
  const FarewellText: string := "We are sorry to see you go, we will miss you in Gurupa!"

  /** Why an invocation is aborted: the subscriber table rejected a read or
      write, the platform rejected an awaited `post`, or `photo[0]` of an
      empty photo list was dereferenced. */
  datatype Error = DbError | PostError | PhotoIndexError

  /** Which flow's success message a response carries. */
  datatype Descriptor = Subscribed | Unsubscribed | HelpSent | Forwarded

  /** The success message of each flow, as the handlers write it. */
  function Body(d: Descriptor): string
  {
    match d
    case Subscribed => "Lambda subscribed a new user!"
    case Unsubscribed => "Lambda unsubscribed one user!"
    case HelpSent => "Lambda send the help to the user!"
    case Forwarded => "Lambda forwarded the message to the group!"
  }

  /** What a handler returns to its caller. */
  datatype Response = Response(statusCode: int, body: string)

  /** `successResponse`: every completed flow answers status 200 with its
      own message, and no other flow's message. */
  function SuccessResponse(d: Descriptor): (r: Response)
    ensures r.statusCode == 200 && r.body == Body(d)
    ensures forall d' | d' != d :: r.body != Body(d')
  {
    Response(200, Body(d))
  }

  /** A `sendMessage` call carrying only the given text. */
  function TextCall(text: string, chatId: ChatId): Call
  {
    Call(SendMessage, Payload(Some(text), None, None), chatId)
  }
}
