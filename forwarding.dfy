/** The forwarding engine of `handleForwardMessage`: the payload built from
    the message shape, the recipient list (the roster without the sender)
    and the one call per recipient. */
module Forwarding {
  import opened Wrappers
  import opened Telegram

  /** JavaScript truthiness of `message.text`: present and not empty. */
  predicate HasText(m: Message)
  {
    m.text.Some? && m.text.value != ""
  }

  /** The handler and parameters shared by every recipient's call. */
  datatype Outbound = Outbound(handler: HandlerKind, payload: Payload)

  /** Each handler carries only its own fields: a text message only its
      non-empty text, a photo its file id and the caption (possibly unset),
      and the undefined handler nothing at all. */
  predicate WellShaped(o: Outbound)
  {
    match o.handler
    case SendMessage => o.payload.text.Some? && o.payload.text.value != "" && o.payload.caption.None? && o.payload.photo.None?
    case SendPhoto => o.payload.text.None? && o.payload.photo.Some?
    case NoHandler => o.payload == Payload(None, None, None)
  }

  /** The payload classification of `handleForwardMessage`. A truthy text
      goes out unchanged as `sendMessage`; otherwise a photo list goes out as
      `sendPhoto` with its first variant's file id and the caption; otherwise
      there is no handler and no field. An empty photo list is truthy, and
      reading its first element throws. */
  function Classify(m: Message): (r: Result<Outbound, Error>)
    ensures r.Err? <==> !HasText(m) && m.photo == Some([])
    ensures r.Err? ==> r.error == PhotoIndexError
    ensures r.Ok? ==> WellShaped(r.value)
    ensures r.Ok? ==> (r.value.handler == SendMessage <==> HasText(m))
    ensures r.Ok? ==> (r.value.handler == SendPhoto <==> !HasText(m) && m.photo.Some?)
    ensures r.Ok? && r.value.handler == SendMessage ==> r.value.payload.text == m.text
    ensures r.Ok? && r.value.handler == SendPhoto ==>
      r.value.payload.caption == m.caption && r.value.payload.photo == Some(m.photo.value[0].fileId)
  {
    if HasText(m) then
      Ok(Outbound(SendMessage, Payload(m.text, None, None)))
    else if m.photo.Some? then
      if |m.photo.value| == 0 then Err(PhotoIndexError)
      else Ok(Outbound(SendPhoto, Payload(None, m.caption, Some(m.photo.value[0].fileId))))
    else
      Ok(Outbound(NoHandler, Payload(None, None, None)))
  }

  /** Text takes precedence: once a message has text, its photo and caption
      do not affect what is sent. */
  lemma TextPrecedence(m: Message, photo: Option<seq<PhotoSize>>, caption: Option<string>)
    requires HasText(m)
    ensures Classify(m.(photo := photo, caption := caption)) == Classify(m)
  {
  }

  /** `chats.filter(id => id !== message.chat.id)`: the roster without the
      sender, in roster order. */
  function Recipients(roster: seq<ChatId>, sender: ChatId): (r: seq<ChatId>)
    ensures forall x :: x in r <==> x in roster && x != sender
    ensures |r| <= |roster|
  {
    if roster == [] then []
    else if roster[0] == sender then Recipients(roster[1..], sender)
    else [roster[0]] + Recipients(roster[1..], sender)
  }

  /** Filtering distributes over concatenation: the relative order of the
      remaining ids is the roster's. */
  lemma {:induction false} RecipientsAppend(a: seq<ChatId>, b: seq<ChatId>, sender: ChatId)
    ensures Recipients(a + b, sender) == Recipients(a, sender) + Recipients(b, sender)
  {
    if a == [] {
      assert a + b == b;
    } else {
      assert (a + b)[1..] == a[1..] + b;
      RecipientsAppend(a[1..], b, sender);
    }
  }

  /** Every id other than the sender keeps its multiplicity; the sender's
      drops to zero. */
  lemma {:induction false} RecipientsMultiset(roster: seq<ChatId>, sender: ChatId)
    ensures multiset(Recipients(roster, sender)) == multiset(roster)[sender := 0]
  {
    if roster != [] {
      RecipientsMultiset(roster[1..], sender);
      assert roster == [roster[0]] + roster[1..];
    }
  }

  /** No id occurs twice. */
  predicate NoDuplicates(s: seq<ChatId>)
  {
    forall i, j :: 0 <= i < j < |s| ==> s[i] != s[j]
  }

  /** A roster that does not contain the sender is forwarded to in full. */
  lemma {:induction false} RecipientsWithoutSender(roster: seq<ChatId>, sender: ChatId)
    requires sender !in roster
    ensures Recipients(roster, sender) == roster
  {
    if roster != [] {
      assert roster[0] != sender;
      RecipientsWithoutSender(roster[1..], sender);
      assert roster == [roster[0]] + roster[1..];
    }
  }

  /** In a roster without duplicates that holds the sender at position k, the
      recipients are the roster with exactly that position removed. */
  lemma RecipientsRemoveSender(roster: seq<ChatId>, sender: ChatId, k: nat)
    requires NoDuplicates(roster)
    requires k < |roster| && roster[k] == sender
    ensures Recipients(roster, sender) == roster[..k] + roster[k + 1..]
  {
    assert roster == roster[..k] + ([roster[k]] + roster[k + 1..]);
    RecipientsAppend(roster[..k], [roster[k]] + roster[k + 1..], sender);
    RecipientsAppend([roster[k]], roster[k + 1..], sender);
    assert Recipients([roster[k]], sender) == Recipients([], sender);
    assert sender !in roster[..k] by {
      forall i | 0 <= i < k ensures roster[..k][i] != sender { }
    }
    assert sender !in roster[k + 1..] by {
      forall i | k < i < |roster| ensures roster[i] != sender { }
    }
    RecipientsWithoutSender(roster[..k], sender);
    RecipientsWithoutSender(roster[k + 1..], sender);
  }

  /** `.map(id => post(apiHandler, params, id))`: one call per id, in order,
      all with the same handler and parameters. */
  function Fanout(o: Outbound, ids: seq<ChatId>): (calls: seq<Call>)
    ensures |calls| == |ids|
    ensures forall i :: 0 <= i < |ids| ==> calls[i] == Call(o.handler, o.payload, ids[i])
  {
    if ids == [] then [] else [Call(o.handler, o.payload, ids[0])] + Fanout(o, ids[1..])
  }

  /** The ids the calls go to, in order. */
  function Targets(calls: seq<Call>): (ids: seq<ChatId>)
    ensures |ids| == |calls|
    ensures forall i :: 0 <= i < |calls| ==> ids[i] == calls[i].chatId
  {
    if calls == [] then [] else [calls[0].chatId] + Targets(calls[1..])
  }

  /** The calls a forward issues for a roster snapshot: the classified
      payload, once for each roster id other than the sender, in roster
      order. The sender never receives its own message. */
  function ForwardCalls(m: Message, roster: seq<ChatId>): (r: Result<seq<Call>, Error>)
    ensures r.Err? <==> Classify(m).Err?
    ensures r.Err? ==> r.error == Classify(m).error
    ensures r.Ok? ==> Targets(r.value) == Recipients(roster, m.chatId)
    ensures r.Ok? ==> forall c | c in r.value :: c.chatId != m.chatId && c.chatId in roster
    ensures r.Ok? ==> forall c | c in r.value :: Outbound(c.handler, c.payload) == Classify(m).value
  {
    match Classify(m)
    case Err(e) => Err(e)
    case Ok(o) =>
      var calls := Fanout(o, Recipients(roster, m.chatId));
      assert forall c | c in calls :: c.chatId in Recipients(roster, m.chatId);
      Ok(calls)
  }

  lemma {:induction false} OnlySenderNoRecipients(roster: seq<ChatId>, sender: ChatId)
    requires forall x | x in roster :: x == sender
    ensures Recipients(roster, sender) == []
  {
    if roster != [] {
      assert roster[0] in roster;
      forall x | x in roster[1..] ensures x == sender {
        assert x in roster;
      }
      OnlySenderNoRecipients(roster[1..], sender);
    }
  }

  /** A message with neither text nor photo is not dropped: every recipient
      still gets a call, with no handler and no field. */
  lemma EmptyMessageStillForwarded(m: Message, roster: seq<ChatId>)
    requires !HasText(m) && m.photo.None?
    ensures ForwardCalls(m, roster).Ok?
    ensures Targets(ForwardCalls(m, roster).value) == Recipients(roster, m.chatId)
    ensures forall c | c in ForwardCalls(m, roster).value :: c.handler == NoHandler && c.payload == Payload(None, None, None)
  {
  }

  /** A roster that holds nobody but the sender (or nobody at all) gives no
      calls. */
  lemma NothingToForward(m: Message, roster: seq<ChatId>)
    requires forall x | x in roster :: x == m.chatId
    requires Classify(m).Ok?
    ensures ForwardCalls(m, roster) == Ok([])
  {
    OnlySenderNoRecipients(roster, m.chatId);
  }

  /** In a roster without duplicates an id occurs once. */
  lemma {:induction false} NoDuplicatesOnce(s: seq<ChatId>, x: ChatId)
    requires NoDuplicates(s)
    ensures multiset(s)[x] == if x in s then 1 else 0
  {
    if s != [] {
      assert NoDuplicates(s[1..]) by {
        forall i, j | 0 <= i < j < |s| - 1 ensures s[1..][i] != s[1..][j] {
          assert s[1..][i] == s[i + 1] && s[1..][j] == s[j + 1];
        }
      }
      NoDuplicatesOnce(s[1..], x);
      assert s == [s[0]] + s[1..];
      if s[0] == x {
        assert x !in s[1..] by {
          forall i | 0 <= i < |s| - 1 ensures s[1..][i] != x {
            assert s[1..][i] == s[i + 1];
          }
        }
      }
    }
  }

  /** For a roster that lists each subscriber once, a forward calls every
      subscriber other than the sender exactly once, and nobody else. */
  lemma ForwardReachesEachOtherOnce(m: Message, roster: seq<ChatId>, id: ChatId)
    requires NoDuplicates(roster)
    requires ForwardCalls(m, roster).Ok?
    ensures multiset(Targets(ForwardCalls(m, roster).value))[id] ==
      if id in roster && id != m.chatId then 1 else 0
  {
    RecipientsMultiset(roster, m.chatId);
    NoDuplicatesOnce(roster, id);
  }
}
