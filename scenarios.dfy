/** The behaviours exercised by the repository's own test suite, stated
    against the model: concrete forwards as lemmas, and whole invocations as
    client methods that use only the handlers' contracts. */
module Scenarios {
  import opened Wrappers
  import opened Telegram
  import opened Router
  import opened Forwarding
  import opened Relay

  /** A plain text message from chat 42. */
  function TextMessage(text: string): Message
  {
    Message(42, Some(text), None, None)
  }

  /** The roster of the test suite, [1, 2, 42], without chat 42. */
  lemma RecipientsOfScenario()
    ensures Recipients([1, 2, 42], 42) == [1, 2]
  {
    assert [1, 2, 42][1..] == [2, 42];
    assert [2, 42][1..] == [42];
    assert [42][1..] == [];
  }

  /** A text sent by chat 42 with roster [1, 2, 42] goes out unchanged, as
      `sendMessage`, to chats 1 and 2 and not to 42. */
  lemma ForwardTextScenario()
    ensures ForwardCalls(TextMessage("my message"), [1, 2, 42]) ==
      Ok([TextCall("my message", 1), TextCall("my message", 2)])
  {
    RecipientsOfScenario();
    var o := Classify(TextMessage("my message")).value;
    assert o == Outbound(SendMessage, Payload(Some("my message"), None, None));
    assert Fanout(o, [1, 2]) == [Call(o.handler, o.payload, 1), Call(o.handler, o.payload, 2)];
  }

  /** A captioned photo from chat 42 goes out as `sendPhoto` with the caption
      and the first variant's file id, to chats 1 and 2. */
  lemma ForwardPhotoScenario()
    ensures ForwardCalls(Message(42, None, Some([PhotoSize("photo_id")]), Some("my message")), [1, 2, 42]) ==
      Ok([Call(SendPhoto, Payload(None, Some("my message"), Some("photo_id")), 1),
          Call(SendPhoto, Payload(None, Some("my message"), Some("photo_id")), 2)])
  {
    RecipientsOfScenario();
    var o := Classify(Message(42, None, Some([PhotoSize("photo_id")]), Some("my message"))).value;
    assert Fanout(o, [1, 2]) == [Call(o.handler, o.payload, 1), Call(o.handler, o.payload, 2)];
  }

  /** "/debug test" is not a command of this version: it is forwarded. */
  lemma DebugTextIsForwarded()
    ensures Route(TextMessage("/debug test").text) == Forward
  {
    TextWithSpaceIsForwarded("/debug test");
  }

  /** `/start` from chat 42: the chat is registered and receives the
      greeting, then the help text; a second `/start` leaves the table as
      it was. */
  method SubscribeScenario(config: Config)
    returns (r: Result<Response, Error>, registry: set<ChatId>, outbox: seq<Call>, again: set<ChatId>)
    ensures r == Ok(SuccessResponse(Subscribed))
    ensures registry == {42} && again == {42}
    ensures outbox == [TextCall(config.greetingsText, 42), TextCall(config.helpText, 42)]
  {
    var bot := new Bot(config, {});
    ghost var roster;
    var r';
    r, roster := bot.Handle(TextMessage("/start"), false, {});
    registry, outbox := bot.registry, bot.outbox;
    r', roster := bot.Handle(TextMessage("/start"), false, {});
    again := bot.registry;
  }

  /** `/stop` from chat 42: the chat is removed and receives the farewell;
      from a chat that is not registered it is not an error. */
  method UnsubscribeScenario(config: Config)
    returns (r: Result<Response, Error>, registry: set<ChatId>, outbox: seq<Call>, r2: Result<Response, Error>, registry2: set<ChatId>)
    ensures r == Ok(SuccessResponse(Unsubscribed)) && registry == {1, 2}
    ensures outbox == [TextCall(FarewellText, 42)]
    ensures r2 == Ok(SuccessResponse(Unsubscribed)) && registry2 == {1, 2}
  {
    var bot := new Bot(config, {1, 2, 42});
    ghost var roster;
    r, roster := bot.Handle(TextMessage("/stop"), false, {});
    registry, outbox := bot.registry, bot.outbox;
    r2, roster := bot.Handle(TextMessage("/stop"), false, {});
    registry2 := bot.registry;
  }

  /** `/help` from chat 42: one help text to the sender, the table is
      untouched, and the answer carries the help flow's message. */
  method HelpScenario(config: Config)
    returns (r: Result<Response, Error>, registry: set<ChatId>, outbox: seq<Call>)
    ensures r.Ok? && r.value.statusCode == 200 && r.value.body == "Lambda send the help to the user!"
    ensures registry == {1, 2}
    ensures outbox == [TextCall(config.helpText, 42)]
  {
    var bot := new Bot(config, {1, 2});
    ghost var roster;
    r, roster := bot.Handle(TextMessage("/help"), false, {});
    registry, outbox := bot.registry, bot.outbox;
  }

  /** A forward from 42 to subscribers {1, 2, 42} reaches 1 and 2 once each
      and never 42, and succeeds although the platform rejects the first
      call. */
  method ForwardScenario(config: Config) returns (r: Result<Response, Error>, targets: seq<ChatId>)
    ensures r == Ok(SuccessResponse(Forwarded))
    ensures multiset(targets) == multiset{1, 2}
  {
    var bot := new Bot(config, {1, 2, 42});
    var m := TextMessage("my message");
    ghost var roster;
    r, roster := bot.Handle(m, false, {0});
    targets := Targets(bot.outbox);
    assert bot.outbox[0..] == bot.outbox;
    forall id: ChatId ensures multiset(targets)[id] == multiset{1, 2}[id] {
      ForwardReachesOthersOnce(m, {1, 2, 42}, [], bot.outbox, r, roster, id);
      assert multiset(targets)[id] == if id in {1, 2} then 1 else 0;
    }
  }
}
