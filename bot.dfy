/** The handlers of the relay bot as one object: the subscriber table
    (`registry`, written by `db.put` and `db.delete`, read by `db.scan`) and
    the outbox of every `post` issued, in issue order. A store operation or a
    `post` that the collaborator rejects is passed in: `fails` for one store
    operation, `failing` for the outbox positions whose calls the platform
    rejects: each issued request is answered on its own, so two equal calls
    can get different answers. */
module Relay {
  import opened Wrappers
  import opened Telegram
  import opened Router
  import opened Forwarding

  /** `items` lists each member of `ids` once, in some order, and nothing
      else: what a scan of a table keyed by chat id returns. */
  predicate Lists(items: seq<ChatId>, ids: set<ChatId>)
  {
    NoDuplicates(items) && (forall x | x in items :: x in ids) && (forall x | x in ids :: x in items)
  }

  /** The response each flow answers with when it completes. */
  function DescriptorOf(i: Intent): Descriptor
  {
    match i
    case Join => Subscribed
    case Leave => Unsubscribed
    case Help => HelpSent
    case Forward => Forwarded
  }

  /** The subscribe flow's effect: the id is stored, then the greeting and
      the help text are sent, in that order. A store failure aborts before
      any message; a rejected greeting aborts before the help text. */
  predicate Subscribes(config: Config, m: Message, dbFails: bool, failing: set<nat>,
                       reg0: set<ChatId>, out0: seq<Call>, reg1: set<ChatId>, out1: seq<Call>,
                       r: Result<Response, Error>)
  {
    var greeting, help := TextCall(config.greetingsText, m.chatId), TextCall(config.helpText, m.chatId);
    if dbFails then
      r == Err(DbError) && reg1 == reg0 && out1 == out0
    else
      reg1 == reg0 + {m.chatId} &&
      if |out0| in failing then
        r == Err(PostError) && out1 == out0 + [greeting]
      else
        out1 == out0 + [greeting, help] &&
        r == if |out0| + 1 in failing then Err(PostError) else Ok(SuccessResponse(Subscribed))
  }

  /** The unsubscribe flow's effect: the id is removed (no error if it was
      absent), then the farewell text is sent. */
  predicate Unsubscribes(m: Message, dbFails: bool, failing: set<nat>,
                         reg0: set<ChatId>, out0: seq<Call>, reg1: set<ChatId>, out1: seq<Call>,
                         r: Result<Response, Error>)
  {
    var farewell := TextCall(FarewellText, m.chatId);
    if dbFails then
      r == Err(DbError) && reg1 == reg0 && out1 == out0
    else
      reg1 == reg0 - {m.chatId} && out1 == out0 + [farewell] &&
      r == if |out0| in failing then Err(PostError) else Ok(SuccessResponse(Unsubscribed))
  }

  /** The help flow's effect: one help text to the sender, nothing stored. */
  predicate Helps(config: Config, m: Message, failing: set<nat>,
                  out0: seq<Call>, out1: seq<Call>, r: Result<Response, Error>)
  {
    var help := TextCall(config.helpText, m.chatId);
    out1 == out0 + [help] &&
    r == if |out0| in failing then Err(PostError) else Ok(SuccessResponse(HelpSent))
  }

  /** The forward flow's effect for the roster the scan returned: a payload
      that cannot be built or a failed scan abort before any call; otherwise
      the forward calls are issued and the forward succeeds, whichever calls
      the platform rejects. */
  predicate Forwards(m: Message, dbFails: bool, reg: set<ChatId>, out0: seq<Call>, out1: seq<Call>,
                     r: Result<Response, Error>, roster: seq<ChatId>)
  {
    match ForwardCalls(m, roster)
    case Err(e) => r == Err(e) && out1 == out0
    case Ok(calls) =>
      if dbFails then r == Err(DbError) && out1 == out0
      else r == Ok(SuccessResponse(Forwarded)) && Lists(roster, reg) && out1 == out0 + calls
  }

  class Bot {
    const config: Config
    var registry: set<ChatId>
    var outbox: seq<Call>

    constructor (config: Config, registry: set<ChatId>)
      ensures this.config == config && this.registry == registry && outbox == []
    {
      this.config := config;
      this.registry := registry;
      outbox := [];
    }

    /** `post(handler, params, chatId)`: the call is issued whatever the
        platform answers; `ok` says whether its promise resolves, which
        depends on the position the call takes in the outbox. */
    method Post(call: Call, failing: set<nat>) returns (ok: bool)
      modifies this`outbox
      ensures outbox == old(outbox) + [call]
      ensures ok <==> |old(outbox)| !in failing
    {
      ok := |outbox| !in failing;
      outbox := outbox + [call];
    }

    /** `db.put({Item: {id}})`: inserting a key that is already present
        overwrites it, so the table stays a set. */
    method Put(id: ChatId, fails: bool) returns (ok: bool)
      modifies this`registry
      ensures ok <==> !fails
      ensures registry == if ok then old(registry) + {id} else old(registry)
    {
      ok := !fails;
      if ok {
        registry := registry + {id};
      }
    }

    /** `db.delete({Key: {id}})`: deleting an absent key is not an error. */
    method Delete(id: ChatId, fails: bool) returns (ok: bool)
      modifies this`registry
      ensures ok <==> !fails
      ensures registry == if ok then old(registry) - {id} else old(registry)
    {
      ok := !fails;
      if ok {
        registry := registry - {id};
      }
    }

    /** `db.scan(...)` mapped to ids: every subscriber once, in an order the
        store chooses. */
    method Scan(fails: bool) returns (r: Result<seq<ChatId>, Error>)
      ensures fails <==> r.Err?
      ensures r.Err? ==> r.error == DbError
      ensures r.Ok? ==> Lists(r.value, registry)
    {
      if fails {
        return Err(DbError);
      }
      var rest := registry;
      var items := [];
      while rest != {}
        invariant rest <= registry
        invariant NoDuplicates(items)
        invariant forall x | x in items :: x in registry && x !in rest
        invariant forall x | x in registry && x !in rest :: x in items
        decreases rest
      {
        assert (forall y :: y !in rest) ==> rest == {};
        var x :| x in rest;
        items := items + [x];
        rest := rest - {x};
      }
      r := Ok(items);
    }

    /** `handleSubscribe`: store the sender's id, then send it the greeting
        and the help text, in that order. A store failure aborts before any
        message; a rejected greeting aborts before the help text. */
    method HandleSubscribe(m: Message, dbFails: bool, failing: set<nat>) returns (r: Result<Response, Error>)
      modifies this`registry, this`outbox
      ensures Subscribes(config, m, dbFails, failing, old(registry), old(outbox), registry, outbox, r)
    {
      var stored := Put(m.chatId, dbFails);
      if !stored {
        return Err(DbError);
      }
      var greeted := Post(TextCall(config.greetingsText, m.chatId), failing);
      if !greeted {
        return Err(PostError);
      }
      var helped := Post(TextCall(config.helpText, m.chatId), failing);
      if !helped {
        return Err(PostError);
      }
      r := Ok(SuccessResponse(Subscribed));
    }

    /** `handleUnsubscribe`: remove the sender's id, then send it the
        farewell text. */
    method HandleUnsubscribe(m: Message, dbFails: bool, failing: set<nat>) returns (r: Result<Response, Error>)
      modifies this`registry, this`outbox
      ensures Unsubscribes(m, dbFails, failing, old(registry), old(outbox), registry, outbox, r)
    {
      var removed := Delete(m.chatId, dbFails);
      if !removed {
        return Err(DbError);
      }
      var sent := Post(TextCall(FarewellText, m.chatId), failing);
      if !sent {
        return Err(PostError);
      }
      r := Ok(SuccessResponse(Unsubscribed));
    }

    /** `handleHelp`: send the help text to the sender; the table is not
        touched. */
    method HandleHelp(m: Message, failing: set<nat>) returns (r: Result<Response, Error>)
      modifies this`outbox
      ensures Helps(config, m, failing, old(outbox), outbox, r)
    {
      var sent := Post(TextCall(config.helpText, m.chatId), failing);
      if !sent {
        return Err(PostError);
      }
      r := Ok(SuccessResponse(HelpSent));
    }

    /** `handleForwardMessage`: build the payload, read the roster, then post
        to every roster id other than the sender. Rejected posts are
        swallowed: once the roster is read the forward succeeds, whatever
        `failing` holds. `roster` is the snapshot the scan returned. */
    method HandleForward(m: Message, dbFails: bool, failing: set<nat>) returns (r: Result<Response, Error>, ghost roster: seq<ChatId>)
      modifies this`outbox
      ensures Forwards(m, dbFails, registry, old(outbox), outbox, r, roster)
    {
      roster := [];
      var built := Classify(m);
      if built.Err? {
        return Err(built.error), roster;
      }
      var o := built.value;
      var chats := Scan(dbFails);
      if chats.Err? {
        return Err(chats.error), roster;
      }
      roster := chats.value;
      var recipients := Recipients(chats.value, m.chatId);
      for i := 0 to |recipients|
        invariant outbox == old(outbox) + Fanout(o, recipients[..i])
      {
        assert recipients[..i + 1] == recipients[..i] + [recipients[i]];
        FanoutAppend(o, recipients[..i], recipients[i]);
        var _ := Post(Call(o.handler, o.payload, recipients[i]), failing);
      }
      assert recipients[..|recipients|] == recipients;
      r := Ok(SuccessResponse(Forwarded));
    }

    /** `exports.handler`: route the parsed message and run its flow. Only
        subscribe and unsubscribe write the table; help sends one message to
        the sender; forward sends the forward calls for the roster read. */
    method Handle(m: Message, dbFails: bool, failing: set<nat>) returns (r: Result<Response, Error>, ghost roster: seq<ChatId>)
      modifies this`registry, this`outbox
      ensures Route(m.text) == Join ==> Subscribes(config, m, dbFails, failing, old(registry), old(outbox), registry, outbox, r)
      ensures Route(m.text) == Leave ==> Unsubscribes(m, dbFails, failing, old(registry), old(outbox), registry, outbox, r)
      ensures Route(m.text) == Help ==> Helps(config, m, failing, old(outbox), outbox, r) && registry == old(registry)
      ensures Route(m.text) == Forward ==> Forwards(m, dbFails, registry, old(outbox), outbox, r, roster) && registry == old(registry)
      ensures r.Ok? ==> r.value == SuccessResponse(DescriptorOf(Route(m.text)))
    {
      roster := [];
      match Route(m.text)
      case Join => r := HandleSubscribe(m, dbFails, failing);
      case Leave => r := HandleUnsubscribe(m, dbFails, failing);
      case Help => r := HandleHelp(m, failing);
      case Forward => r, roster := HandleForward(m, dbFails, failing);
    }
  }

  /** Growing the id list by one id grows the calls by that id's call. */
  lemma FanoutAppend(o: Outbound, ids: seq<ChatId>, id: ChatId)
    ensures Fanout(o, ids + [id]) == Fanout(o, ids) + [Call(o.handler, o.payload, id)]
  {
  }

  /** Subscribing is idempotent set insertion: storing an id already present
      leaves the table as it was, and when both posts are accepted the sender
      still gets greeting and help and the subscribe descriptor. */
  lemma SubscribeIdempotent(config: Config, m: Message, failing: set<nat>,
                            reg0: set<ChatId>, out0: seq<Call>, reg1: set<ChatId>, out1: seq<Call>,
                            r: Result<Response, Error>)
    requires m.chatId in reg0
    requires Subscribes(config, m, false, failing, reg0, out0, reg1, out1, r)
    ensures reg1 == reg0
    ensures |out0| !in failing && |out0| + 1 !in failing ==>
      out1 == out0 + [TextCall(config.greetingsText, m.chatId), TextCall(config.helpText, m.chatId)] &&
      r == Ok(SuccessResponse(Subscribed))
  {
  }

  /** Unsubscribing removes the sender and nobody else, and a sender that
      was not subscribed leaves the table as it was. */
  lemma UnsubscribeRemovesOnlySender(m: Message, failing: set<nat>,
                                     reg0: set<ChatId>, out0: seq<Call>, reg1: set<ChatId>, out1: seq<Call>,
                                     r: Result<Response, Error>, id: ChatId)
    requires Unsubscribes(m, false, failing, reg0, out0, reg1, out1, r)
    ensures id in reg1 <==> id in reg0 && id != m.chatId
    ensures m.chatId !in reg0 ==> reg1 == reg0
  {
  }

  /** The calls a forward adds to the outbox never go to the sender, and go
      to every other subscriber exactly once. */
  lemma ForwardReachesOthersOnce(m: Message, reg: set<ChatId>, out0: seq<Call>, out1: seq<Call>,
                                 r: Result<Response, Error>, roster: seq<ChatId>, id: ChatId)
    requires Forwards(m, false, reg, out0, out1, r, roster)
    requires Classify(m).Ok?
    ensures r == Ok(SuccessResponse(Forwarded))
    ensures |out0| <= |out1| && out1[..|out0|] == out0
    ensures forall c | c in out1[|out0|..] :: c.chatId != m.chatId
    ensures multiset(Targets(out1[|out0|..]))[id] == if id in reg && id != m.chatId then 1 else 0
  {
    var calls := ForwardCalls(m, roster).value;
    assert out1 == out0 + calls;
    assert out1[|out0|..] == calls;
    ForwardReachesEachOtherOnce(m, roster, id);
    assert id in roster <==> id in reg;
  }

  /** Each request is answered on its own: when the help post is rejected
      the invocation fails after both posts went out, even if the greeting
      and the help text are the same call. */
  lemma RejectedHelpAbortsAfterBoth(config: Config, m: Message,
                                    reg0: set<ChatId>, out0: seq<Call>, reg1: set<ChatId>, out1: seq<Call>,
                                    r: Result<Response, Error>)
    requires Subscribes(config, m, false, {|out0| + 1}, reg0, out0, reg1, out1, r)
    ensures r == Err(PostError)
    ensures out1 == out0 + [TextCall(config.greetingsText, m.chatId), TextCall(config.helpText, m.chatId)]
  {
  }
}
