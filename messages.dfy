/** The messages endpoint (`/api/messages`): a customer's conversation with the team, read from
    a fixed mock list, and the shaping of a newly sent message. Nothing is ever stored. */
module Messages {
  import opened Wrappers
  import opened Js
  import opened Http
  import Seqs
  import Text

  /** A message; `timestamp` is an instant in milliseconds. `content` and `duration` are absent
      when the source leaves them `undefined`. */
  datatype Message = Message(
    id: string, from: string, to: string, content: Option<string>, msgType: string,
    duration: Option<nat>, timestamp: int, read: bool)

  /** The fields of a POST body; `audioData` matters only through its truthiness. */
  datatype Draft = Draft(from: Option<string>, to: Option<string>, content: Option<string>,
                         msgType: Option<string>, audioData: Option<string>)

  datatype Body =
    | Error(error: string)
    | Conversation(messages: seq<Message>, total: nat, unread: nat)
    | Sent(message: Message, expectedResponse: string)

  // ---------------------------------------------------------------- GET

  predicate Involves(m: Message, customerId: string) {
    m.to == customerId || m.from == customerId
  }

  /** Unread and addressed to the customer. */
  predicate UnreadFor(m: Message, customerId: string) {
    !m.read && m.to == customerId
  }

  /** Which messages a listing keeps: those to or from the customer, and with `unreadOnly` only
      the unread ones addressed to the customer. */
  predicate Listed(m: Message, customerId: string, unreadOnly: bool) {
    Involves(m, customerId) && (unreadOnly ==> UnreadFor(m, customerId))
  }

  function TimestampDesc(m: Message): int { -m.timestamp }

  /** The listed messages, newest first. The source filters twice; one filter by both tests
      keeps the same messages in the same order. */
  function Thread(store: seq<Message>, customerId: string, unreadOnly: bool): (r: seq<Message>)
    ensures Seqs.SortedBy(r, TimestampDesc)
    ensures multiset(r) <= multiset(store)
    ensures forall m :: multiset(r)[m] == if Listed(m, customerId, unreadOnly) then multiset(store)[m] else 0
  {
    var p := (m: Message) => Listed(m, customerId, unreadOnly);
    Seqs.FilterCountsAll(store, p);
    Seqs.SortBy(Seqs.Filter(store, p), TimestampDesc)
  }

  /** A thread holds exactly the messages its filter keeps. */
  lemma ThreadMembers(store: seq<Message>, customerId: string, unreadOnly: bool, m: Message)
    ensures m in Thread(store, customerId, unreadOnly) <==> m in store && Listed(m, customerId, unreadOnly)
  {
    var kept := Seqs.Filter(store, (x: Message) => Listed(x, customerId, unreadOnly));
    var r := Thread(store, customerId, unreadOnly);
    assert multiset(r) == multiset(kept);
    if m in r {
      assert m in multiset(kept);
      var j :| 0 <= j < |kept| && kept[j] == m;
    }
    if m in store && Listed(m, customerId, unreadOnly) {
      var k :| 0 <= k < |store| && store[k] == m;
      assert m in kept;
      assert m in multiset(r);
    }
  }

  /** How many of `ms` are unread and addressed to the customer. */
  function UnreadCount(ms: seq<Message>, customerId: string): (n: nat)
    ensures n <= |ms|
    decreases |ms|
  {
    if |ms| == 0 then 0 else (if UnreadFor(ms[0], customerId) then 1 else 0) + UnreadCount(ms[1..], customerId)
  }

  /** In an unread-only listing every message counts as unread. */
  lemma {:induction false} UnreadOnlyAllUnread(ms: seq<Message>, customerId: string)
    requires forall k :: 0 <= k < |ms| ==> Listed(ms[k], customerId, true)
    ensures UnreadCount(ms, customerId) == |ms|
    decreases |ms|
  {
    if |ms| > 0 {
      UnreadOnlyAllUnread(ms[1..], customerId);
    }
  }

  /** The unread-only thread counts every one of its messages as unread. */
  lemma UnreadThreadAllUnread(store: seq<Message>, customerId: string)
    ensures UnreadCount(Thread(store, customerId, true), customerId) == |Thread(store, customerId, true)|
  {
    var ms := Thread(store, customerId, true);
    forall k | 0 <= k < |ms| ensures Listed(ms[k], customerId, true) {
      ThreadMembers(store, customerId, true, ms[k]);
    }
    UnreadOnlyAllUnread(ms, customerId);
  }

  /** `GET ?customerId=&unread=` over the mock list, passed in as `store`. */
  function Get(store: seq<Message>, customerId: Option<string>, unread: Option<string>): (r: Response<Body>)
    ensures !Present(customerId) ==> r == Response(BAD_REQUEST, Error("Customer ID required"))
    ensures Present(customerId) ==>
              r.status == OK && r.body.Conversation?
              && r.body.messages == Thread(store, customerId.value, unread == Some("true"))
              && r.body.total == |r.body.messages|
              && r.body.unread == UnreadCount(r.body.messages, customerId.value)
    ensures Present(customerId) && unread == Some("true") ==> r.body.unread == r.body.total
  {
    if !Present(customerId) then Response(BAD_REQUEST, Error("Customer ID required"))
    else
      var ms := Thread(store, customerId.value, unread == Some("true"));
      UnreadThreadAllUnread(store, customerId.value);
      Response(OK, Conversation(ms, |ms|, UnreadCount(ms, customerId.value)))
  }

  // ---------------------------------------------------------------- POST

  /** `responseTime[to] || '24 hours'` */
  function ExpectedResponse(to: string): (r: string)
    ensures to !in ["rebecca", "david", "simon"] ==> r == "24 hours"
    ensures to == "rebecca" ==> r == "2 hours"
    ensures to == "david" ==> r == "4 hours"
    ensures to == "simon" ==> r == "3 hours"
  {
    if to == "rebecca" then "2 hours"
    else if to == "david" then "4 hours"
    else if to == "simon" then "3 hours"
    else "24 hours"
  }

  /** `!from || !to || (!content && !audioData)` */
  predicate Incomplete(d: Draft) {
    !Present(d.from) || !Present(d.to) || (!Present(d.content) && !Present(d.audioData))
  }

  /** A voice note with audio: `type === 'voice' && audioData`. */
  predicate IsVoice(d: Draft) {
    d.msgType.GetOr("text") == "voice" && Present(d.audioData)
  }

  /** `POST` at instant `now`. `roll` is `Math.floor(Math.random() * 60)`, the mock length of a
      voice note is `roll + 10` seconds. */
  function Post(d: Draft, now: nat, roll: nat): (r: Response<Body>)
    requires roll < 60
    ensures Incomplete(d) ==> r == Response(BAD_REQUEST, Error("Missing required fields"))
    ensures !Incomplete(d) ==>
              r.status == CREATED && r.body.Sent?
              && r.body.message.id == "msg_" + Text.NatToString(now)
              && r.body.message.from == d.from.value && r.body.message.to == d.to.value
              && r.body.message.msgType == d.msgType.GetOr("text")
              && !r.body.message.read && r.body.message.timestamp == now
              && r.body.expectedResponse == ExpectedResponse(d.to.value)
    ensures !Incomplete(d) && IsVoice(d) ==>
              r.body.message.content == Some("[Voice message]")
              && r.body.message.duration.Some? && 10 <= r.body.message.duration.value < 70
    ensures !Incomplete(d) && !IsVoice(d) ==>
              r.body.message.content == d.content && r.body.message.duration.None?
  {
    if Incomplete(d) then Response(BAD_REQUEST, Error("Missing required fields"))
    else
      var voice := IsVoice(d);
      var m := Message("msg_" + Text.NatToString(now), d.from.value, d.to.value,
                       if voice then Some("[Voice message]") else d.content,
                       d.msgType.GetOr("text"), if voice then Some(roll + 10) else None, now, false);
      Response(CREATED, Sent(m, ExpectedResponse(d.to.value)))
  }

  /** A message that passes validation has something to show: its text or the voice label. */
  lemma SentMessageHasContent(d: Draft, now: nat, roll: nat)
    requires roll < 60 && !Incomplete(d)
    requires Present(d.content) || d.msgType.GetOr("text") == "voice"
    ensures Present(Post(d, now, roll).body.message.content)
  {
  }

  /** Audio sent without the voice type passes validation but yields a message with no text:
      the type defaults to text, so the voice label is never applied. */
  lemma AudioWithoutVoiceTypeHasNoContent(from: string, to: string, now: nat, roll: nat)
    requires roll < 60 && from != "" && to != ""
    ensures var d := Draft(Some(from), Some(to), None, None, Some("webm-bytes"));
            Post(d, now, roll).status == CREATED && Post(d, now, roll).body.message.content.None?
  {
  }
}
