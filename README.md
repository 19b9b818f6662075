# Anonymizer relay bot — a Dafny model of its webhook handler

The relay bot receives chat-platform webhook events, keeps a table of
subscribed chat ids, and relays every message from one subscriber to all the
others. This project models the early handler in `index.js`: the command
router, the forwarding engine (payload classification, recipient list,
one outbound call per recipient) and the subscribe, unsubscribe and help
flows run against a subscriber table and an outbox of outbound calls.

Modules, one per concern of `index.js`:

- `Wrappers` (`wrappers.dfy`): `Option` and `Result`.
- `Telegram` (`telegram.dfy`): the records — `Message` (the parsed
  `message`: `chat.id`, optional `text`, `photo`, `caption`), `Payload`,
  `Call` (one `post(handler, params, chatId)`), `Config`, `Error`,
  `Descriptor` with `Body` giving each success message exactly as the code
  writes it, and `Response`.
- `Router` (`router.dfy`): `Intent`, the `UserCommands` table and `Route`.
- `Forwarding` (`forwarding.dfy`): `Classify`, `Recipients`, `Fanout`,
  `ForwardCalls` and the lemmas about them.
- `Relay` (`bot.dfy`): class `Bot` with the subscriber table `registry:
  set<ChatId>` and the append-only `outbox: seq<Call>`; the store operations
  (`Put`, `Delete`, `Scan`), the transport (`Post`) and the four flows as
  methods. Each flow's whole effect is stated once, as a predicate over the
  old and new table and outbox (`Subscribes`, `Unsubscribes`, `Helps`,
  `Forwards`), which both the flow's method and `Handle` ensure.
- `Scenarios` (`scenarios.dfy`): the subscribe, unsubscribe, help and
  forward tests of `spec/index.spec.js`, and the code's handling of
  `/debug test`, as lemmas and as client methods that use only the handlers' contracts.

Collaborators are parameters. `dbFails` says whether the store rejects the
flow's one store operation. `failing` is the set of outbox positions whose
requests the platform rejects: every request is answered on its own, so two
equal calls in one invocation can get different answers. A rejected store operation aborts the
invocation (`Err(DbError)`). A rejected awaited `post` in subscribe,
unsubscribe or help aborts it too (`Err(PostError)`). In a forward, rejected
posts are swallowed.

JavaScript truthiness is modelled where the code relies on it. An empty
`text` is falsy, so it falls through to the photo branch. An empty `photo`
list is truthy, and reading `photo[0].file_id` from it throws before the
table is read; this is `Err(PhotoIndexError)`.

This early `index.js` has no nickname rotation and no nickname prefix, no
`/debug` command ("/debug test" is forwarded like any text) and no
edited-message handling; the model follows it as written. The help flow
answers "Lambda send the help to the user!", as the code writes it.

## Model

| member | source | states |
|---|---|---|
| `Telegram.SuccessResponse` | index.js:50-55 | every completed flow answers status 200 with its own message, which no other flow's message equals |
| `Router.Route` | index.js:131-138 | a command is chosen exactly when the text equals that command's `userCommands` entry; a missing text or any other text is forwarded |
| `Router.CommandsSelectThemselves` | index.js:10-14 | each command text of the table routes to its own command (the table is unambiguous) |
| `Router.TextWithSpaceIsForwarded` | index.js:131-138 | a text holding a space, such as a command with an argument, is forwarded |
| `Forwarding.Classify` | index.js:89-98 | a truthy text gives `sendMessage` with the text unchanged and no other field; otherwise a photo list gives `sendPhoto` with the caption and the first variant's file id; otherwise no handler and an empty payload; an empty photo list is the one error |
| `Forwarding.TextPrecedence` | index.js:91-98 | once a message has text, its photo and caption do not change what is sent |
| `Forwarding.Recipients` | index.js:108-109 | an id is a recipient exactly when it is in the roster and is not the sender |
| `Forwarding.RecipientsAppend` | index.js:108-109 | the recipient list keeps roster order: filtering distributes over concatenation |
| `Forwarding.RecipientsMultiset` | index.js:108-109 | every id other than the sender keeps its number of occurrences; the sender's becomes zero |
| `Forwarding.RecipientsWithoutSender` | index.js:108-109 | a roster without the sender is forwarded to in full, in order |
| `Forwarding.RecipientsRemoveSender` | index.js:100-109 | for a roster without duplicates holding the sender at position k, the recipients are the roster with exactly position k removed |
| `Forwarding.OnlySenderNoRecipients` | index.js:108-109 | a roster holding nobody but the sender has no recipients |
| `Forwarding.Fanout` | index.js:110 | one call per id, in order, each with the shared handler and parameters |
| `Forwarding.ForwardCalls` | index.js:88-110 | the forward's calls go, in roster order, to the roster ids other than the sender, never to the sender, all with the classified payload; the only error is the classification's |
| `Forwarding.EmptyMessageStillForwarded` | index.js:88-110 | a message with neither text nor photo still gives one call per recipient, each with no handler and an empty payload |
| `Forwarding.NothingToForward` | index.js:107-110 | an empty roster, or one holding only the sender, gives zero calls |
| `Forwarding.ForwardReachesEachOtherOnce` | index.js:100-110 | for a roster without duplicates, each roster id other than the sender is called exactly once and no other id is called |
| `Relay.Bot.Post` | index.js:16-48 | the call is appended to the outbox whatever the answer; it succeeds exactly when the platform does not reject the request at that outbox position |
| `Relay.Bot.Put` | index.js:58-62 | on success the table gains the id (no duplicate for a present id); on failure it is unchanged |
| `Relay.Bot.Delete` | index.js:71-75 | on success the table loses the id (no error for an absent id); on failure it is unchanged |
| `Relay.Bot.Scan` | index.js:100-105 | on success returns every subscriber exactly once and nothing else, in an order the store chooses; on failure a store error |
| `Relay.Bot.HandleSubscribe` | index.js:57-68 | the table becomes the old table plus the sender; then the greeting and the help text go to the sender, in that order; a store failure sends nothing; a rejected greeting stops before the help text |
| `Relay.Bot.HandleUnsubscribe` | index.js:70-80 | the table becomes the old table minus the sender; then one farewell message goes to the sender; a store failure sends nothing |
| `Relay.Bot.HandleHelp` | index.js:82-86 | one help message to the sender; the table is untouched |
| `Relay.Bot.HandleForward` | index.js:88-117 | a payload that cannot be built or a failed scan sends nothing and fails; otherwise the forward calls for the roster read are appended and the forward succeeds whichever calls the platform rejects |
| `Relay.Bot.Handle` | index.js:119-139 | the routed flow's effect; only subscribe and unsubscribe write the table; a success carries the routed flow's descriptor |
| `Relay.SubscribeIdempotent` | index.js:57-67 | subscribing an id already present leaves the table unchanged; when both posts are accepted the sender gets greeting then help and the subscribe descriptor |
| `Relay.RejectedHelpAbortsAfterBoth` | index.js:64-65 | a rejected help post fails the invocation after both posts went out, even when greeting and help are the same call |
| `Relay.UnsubscribeRemovesOnlySender` | index.js:70-77 | unsubscribing removes the sender and no other id; a non-member leaves the table unchanged |
| `Relay.ForwardReachesOthersOnce` | index.js:100-116 | a forward only appends to the outbox, never calls the sender, calls every other subscriber exactly once, and reports success |
| `Scenarios.RecipientsOfScenario` | spec/index.spec.js:107 | the test roster [1, 2, 42] without chat 42 is [1, 2] |
| `Scenarios.ForwardTextScenario` | spec/index.spec.js:110-127 | "my message" from chat 42 goes unchanged as `sendMessage` to chats 1 and 2 only |
| `Scenarios.ForwardPhotoScenario` | spec/index.spec.js:129-147 | a captioned photo from chat 42 goes as `sendPhoto` with caption and file id to chats 1 and 2 only |
| `Scenarios.SubscribeScenario` | spec/index.spec.js:32-49 | `/start` from chat 42 registers it, sends greeting then help, answers the subscribe descriptor; a second `/start` leaves the table as it was |
| `Scenarios.UnsubscribeScenario` | spec/index.spec.js:51-67 | `/stop` from chat 42 removes it, sends one farewell, answers the unsubscribe descriptor; again from a non-member it is no error |
| `Scenarios.HelpScenario` | spec/index.spec.js:69-84 | `/help` from chat 42 sends one help text and leaves the table untouched; the body is "Lambda send the help to the user!", as index.js:85 writes it |
| `Scenarios.ForwardScenario` | spec/index.spec.js:104-127 | a forward from 42 to {1, 2, 42} calls 1 and 2 once each and never 42, and succeeds although the first post is rejected |
| `Scenarios.DebugTextIsForwarded` | index.js:131-138 | "/debug test" is forwarded, since this version has no debug command |

## Left out

- The HTTPS transport of `post` (index.js:16-48 and its copy in util.js): request building, response streaming and JSON parsing. A call either resolves or is rejected. A network error that only logs and never settles the promise (index.js:41-43) is not modelled.
- The DynamoDB client (index.js:6-8) and the wire form of `put`, `delete` and `scan`. Only their effect on the table is modelled. `Scan` returns the whole table; the store's paging of large scan results is not modelled.
- Parsing of `event.body` (index.js:123-128): the model takes the parsed `message`. An event without a `message` is not modelled.
- Logging, and the exact `JSON.stringify` form of the response body (index.js:50-55): a response is status 200 and the flow's message as a plain string; `JSON.stringify` would wrap it in double quotes.
- The concurrency of `Promise.all` (index.js:111-114): the forward's posts are a sequential list in issue order, and the outcome is success whatever they answer.
- Fields of other JavaScript types than the ones declared in `Message` (a numeric `text`, a `photo` that is not a list, a variant without `file_id`).
- A null `caption` is treated as an absent one; the code would send `"caption": null` for it (index.js:96), where an absent caption is dropped from the request body.
- Nickname rotation, nickname-prefixed texts, the `/debug` command and edited messages: the modelled `index.js` does not have them.
