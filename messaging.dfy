/**
 * The message endpoints: a conversation's messages in time order, sending a
 * message into a match, and marking a message as read. The message, match and
 * user tables are fields of one class standing for the repositories.
 */
module Messaging {
  import opened Wrappers
  import opened Entities
  import opened Sequences
  import opened Sorting

  /** A posted message: the ids it refers to and the fields it carries, each possibly absent. */
  datatype MessageRequest = MessageRequest(matchId: Option<int>, senderId: Option<int>,
                                           messageContent: Option<string>, isRead: Option<bool>,
                                           sentAt: Option<int>)

  datatype MessageError =
    | MissingMatchId   // `message.getMatch()` or its id is null: the lookup throws
    | MatchNotFound    // "Match not found"
    | MissingSenderId  // `message.getSender()` or its id is null
    | SenderNotFound   // "Sender user not found"
    | ContentMissing   // `message_content` is a NOT NULL column: the insert fails
    | MessageNotFound  // "Message not found"

  predicate MatchExists(matches: seq<Match>, id: int) {
    exists m :: m in matches && m.matchId == id
  }

  predicate UserExists(users: seq<User>, id: int) {
    exists u :: u in users && u.userId == Some(id)
  }

  /**
   * The message a send stores, or why it fails: the match is resolved first, then the
   * sender, then the row is inserted with the next id; an omitted `isRead` is false and an
   * omitted `sentAt` is the time of the request.
   */
  function Sent(matches: seq<Match>, users: seq<User>, request: MessageRequest, id: int, now: int)
    : (r: Result<Message, MessageError>)
    ensures r.Ok? <==>
      request.matchId.Some? && MatchExists(matches, request.matchId.value)
      && request.senderId.Some? && UserExists(users, request.senderId.value)
      && request.messageContent.Some?
    ensures r == Err(MatchNotFound) <==> request.matchId.Some? && !MatchExists(matches, request.matchId.value)
    ensures r == Err(SenderNotFound) <==>
      request.matchId.Some? && MatchExists(matches, request.matchId.value)
      && request.senderId.Some? && !UserExists(users, request.senderId.value)
    ensures r.Ok? ==>
      r.value.messageId == id && r.value.matchId == request.matchId.value
      && r.value.senderId == request.senderId.value && r.value.content == request.messageContent.value
      && r.value.isRead == request.isRead.GetOr(false) && r.value.sentAt == request.sentAt.GetOr(now)
  {
    if request.matchId.None? then Err(MissingMatchId)
    else if !MatchExists(matches, request.matchId.value) then Err(MatchNotFound)
    else if request.senderId.None? then Err(MissingSenderId)
    else if !UserExists(users, request.senderId.value) then Err(SenderNotFound)
    else if request.messageContent.None? then Err(ContentMissing)
    else Ok(Message(id, request.matchId.value, request.senderId.value, request.messageContent.value,
                    request.isRead.GetOr(false), request.sentAt.GetOr(now)))
  }

  function SentAtKey(m: Message): real {
    m.sentAt as real
  }

  /** `findByMatchMatchIdOrderBySentAtAsc`: the match's messages, oldest first. */
  function OfMatch(messages: seq<Message>, matchId: int): seq<Message> {
    SortBy(Filter(messages, (m: Message) => m.matchId == matchId), SentAtKey)
  }

  /** The last position holding the message with this id; with unique ids, its only one. */
  function IndexOf(messages: seq<Message>, id: int): (k: Option<nat>)
    ensures k.None? <==> forall i :: 0 <= i < |messages| ==> messages[i].messageId != id
    ensures k.Some? ==> k.value < |messages| && messages[k.value].messageId == id
    ensures k.Some? ==> forall i :: k.value < i < |messages| ==> messages[i].messageId != id
  {
    if messages == [] then None
    else if messages[|messages| - 1].messageId == id then Some(|messages| - 1)
    else IndexOf(messages[..|messages| - 1], id)
  }

  /** The table after marking message `id` as read. */
  function MarkedRead(messages: seq<Message>, id: int): seq<Message> {
    match IndexOf(messages, id)
    case None => messages
    case Some(k) => messages[k := messages[k].(isRead := true)]
  }

  /** Message ids are unique. */
  predicate UniqueIds(messages: seq<Message>) {
    forall i, j :: 0 <= i < j < |messages| ==> messages[i].messageId != messages[j].messageId
  }

  class MessageBoard {
    var matches: seq<Match>
    var users: seq<User>
    var messages: seq<Message>
    var nextMessageId: int

    /** Ids are unique and below the next one handed out. */
    predicate Valid()
      reads this
    {
      UniqueIds(messages) && forall i :: 0 <= i < |messages| ==> messages[i].messageId < nextMessageId
    }

    constructor(matches: seq<Match>, users: seq<User>)
      ensures Valid()
      ensures this.matches == matches && this.users == users && messages == []
    {
      this.matches := matches;
      this.users := users;
      messages := [];
      nextMessageId := 1;
    }

    /** `getMessagesByMatch`: exactly the match's messages, in non-decreasing `sentAt` order. */
    method GetMessagesByMatch(matchId: int) returns (r: seq<Message>)
      ensures r == OfMatch(messages, matchId)
      ensures SortedBy(r, SentAtKey)
      ensures forall m :: m in r <==> m in messages && m.matchId == matchId
      ensures multiset(r) == multiset(Filter(messages, (m: Message) => m.matchId == matchId))
    {
      var p := (m: Message) => m.matchId == matchId;
      var mine := Filter(messages, p);
      r := SortBy(mine, SentAtKey);
      SortBySorted(mine, SentAtKey);
      forall m ensures m in r <==> m in messages && m.matchId == matchId {
        assert m in r <==> m in multiset(r);
        FilterMember(messages, p, m);
      }
    }

    /** `sendMessage`: a failed check stores nothing; a stored message is appended with a new id. */
    method SendMessage(request: MessageRequest, now: int) returns (r: Result<Message, MessageError>)
      requires Valid()
      modifies this
      ensures Valid()
      ensures r == Sent(old(matches), old(users), request, old(nextMessageId), now)
      ensures r.Err? ==> messages == old(messages) && nextMessageId == old(nextMessageId)
      ensures r.Ok? ==> messages == old(messages) + [r.value] && nextMessageId == old(nextMessageId) + 1
      ensures matches == old(matches) && users == old(users)
    {
      r := Sent(matches, users, request, nextMessageId, now);
      if r.Ok? {
        messages := messages + [r.value];
        nextMessageId := nextMessageId + 1;
      }
    }

    /** `markAsRead`: the message's flag becomes true; an unknown id is an error and changes nothing. */
    method MarkAsRead(id: int) returns (r: Result<Message, MessageError>)
      requires Valid()
      modifies this
      ensures Valid()
      ensures messages == MarkedRead(old(messages), id)
      ensures r.Err? <==> IndexOf(old(messages), id).None?
      ensures r.Err? ==> r.error == MessageNotFound
      ensures r.Ok? ==> r.value == old(messages)[IndexOf(old(messages), id).value].(isRead := true)
      ensures matches == old(matches) && users == old(users) && nextMessageId == old(nextMessageId)
    {
      var k := IndexOf(messages, id);
      if k.None? {
        return Err(MessageNotFound);
      }
      var marked := messages[k.value].(isRead := true);
      messages := messages[k.value := marked];
      r := Ok(marked);
    }
  }

  /**
   * Marking as read sets the flag of the message with that id and of no other, changes no other
   * field, keeps ids unique and does nothing more when repeated.
   */
  lemma MarkedReadSpec(messages: seq<Message>, id: int)
    requires UniqueIds(messages)
    ensures var after := MarkedRead(messages, id);
      |after| == |messages| && UniqueIds(after)
      && (forall i :: 0 <= i < |messages| ==>
            after[i].(isRead := messages[i].isRead) == messages[i]
            && after[i].isRead == (messages[i].isRead || messages[i].messageId == id))
      && MarkedRead(after, id) == after
  {
    var after := MarkedRead(messages, id);
    match IndexOf(messages, id)
    case None =>
    case Some(k) =>
      assert after[k].messageId == id;
      var k2 := IndexOf(after, id).value;
      assert k2 == k;
      assert after[k := after[k].(isRead := true)] == after;
  }
}
